/** The queries of the c-ares adapter: one at a time, each answered by one callback
    (src/cares_adapter.zig). c-ares answers a started query exactly once, perhaps already
    inside the call that starts or cancels it. */
module Resolver {
  import opened Statuses

  datatype Node = V4(address: nat) | OtherFamily

  datatype AresStatus = Success | AresCancelled | AresDestroyed | AresError

  /** What c-ares reports; `room` says whether the result array can be allocated. */
  datatype Answer = Answer(status: AresStatus, nodes: Option<seq<Node>>, room: bool)

  datatype Address = Address(address: nat, port: nat)

  datatype Outcome = Addresses(list: seq<Address>) | Failed | Cancelled

  /** `failing` is integration_failed, `forced` is force_failure; `callback` is the number of
      the query whose callback is stored. */
  datatype Query = Query(
    destroying: bool, active: bool, failing: bool, forced: bool, port: nat, callback: Option<nat>)

  const NEW_QUERY := Query(false, false, false, false, 0, None)

  function V4s(nodes: seq<Node>, port: nat): seq<Address> {
    if nodes == [] then []
    else
      var last := nodes[|nodes| - 1];
      V4s(nodes[..|nodes| - 1], port) + if last.V4? then [Address(last.address, port)] else []
  }

  /** What the callback is told, apart from a forced failure. */
  function Classify(a: Answer, port: nat): Outcome {
    if a.status == AresCancelled || a.status == AresDestroyed then Cancelled
    else if a.status != Success || a.nodes.None? || !a.room || V4s(a.nodes.value, port) == [] then Failed
    else Addresses(V4s(a.nodes.value, port))
  }

  /** onResolved: the state, and what the stored callback is called with. */
  function OnResolved(q: Query, a: Answer): (Query, Option<(nat, Outcome)>) {
    var q1 := q.(active := false, callback := None);
    if q.callback.None? then (q1, None)
    else if q.forced then (q1.(forced := false), Some((q.callback.value, Failed)))
    else (q1, Some((q.callback.value, Classify(a, q.port))))
  }

  // ------------------------------------------------------------------- the adapter's code

  /** The two passes of onResolved over the result list. */
  method FillAddresses(nodes: seq<Node>, port: nat) returns (addresses: array<Address>)
    ensures fresh(addresses) && addresses[..] == V4s(nodes, port)
  {
    var count := 0;
    for i := 0 to |nodes|
      invariant count == |V4s(nodes[..i], port)|
    {
      assert nodes[..i + 1][..|nodes[..i + 1]| - 1] == nodes[..i];
      if nodes[i].V4? {
        count := count + 1;
      }
    }
    assert nodes[..|nodes|] == nodes;
    addresses := new Address[count](_ => Address(0, 0));
    var index := 0;
    for i := 0 to |nodes|
      invariant index == |V4s(nodes[..i], port)| && index <= count
      invariant addresses[..index] == V4s(nodes[..i], port)
    {
      assert nodes[..i + 1][..|nodes[..i + 1]| - 1] == nodes[..i];
      Shorter(nodes, i + 1, port);
      if nodes[i].V4? {
        addresses[index] := Address(nodes[i].address, port);
        index := index + 1;
      }
    }
    assert addresses[..index] == addresses[..];
  }

  lemma {:induction false} Shorter(nodes: seq<Node>, i: nat, port: nat)
    requires i <= |nodes|
    ensures |V4s(nodes[..i], port)| <= |V4s(nodes, port)|
    decreases |nodes| - i
  {
    if i == |nodes| {
      assert nodes[..i] == nodes;
    } else {
      Shorter(nodes, i + 1, port);
      assert nodes[..i + 1][..|nodes[..i + 1]| - 1] == nodes[..i];
    }
  }

  class Adapter {
    var destroying: bool
    var active: bool
    var failing: bool
    var forced: bool
    var port: nat
    var callback: Option<nat>

    function View(): Query
      reads this
    {
      Query(destroying, active, failing, forced, port, callback)
    }

    constructor ()
      ensures View() == NEW_QUERY
    {
      destroying, active, failing, forced, port, callback := false, false, false, false, 0, None;
    }

    /** resolve, up to the call of ares_getaddrinfo. */
    method Begin(id: nat, port: nat) returns (ok: bool)
      modifies this
      ensures ok <==> CanBegin(old(View()))
      ensures View() == if ok then Began(old(View()), id, port) else old(View())
    {
      if destroying {
        return false;
      }
      if active {
        return false;
      }
      this.port := port;
      callback := Some(id);
      active := true;
      return true;
    }

    method Resolved(a: Answer) returns (call: Option<(nat, Outcome)>)
      modifies this
      ensures (View(), call) == OnResolved(old(View()), a)
    {
      active := false;
      if callback.None? {
        return None;
      }
      var id := callback.value;
      callback := None;
      if forced {
        forced := false;
        return Some((id, Failed));
      }
      if a.status == AresCancelled || a.status == AresDestroyed {
        return Some((id, Cancelled));
      }
      if a.status != Success || a.nodes.None? || !a.room {
        return Some((id, Failed));
      }
      var addresses := FillAddresses(a.nodes.value, port);
      if addresses.Length == 0 {
        assert addresses[..] == [];
        return Some((id, Failed));
      }
      assert |addresses[..]| > 0;
      return Some((id, Addresses(addresses[..])));
    }

    /** onTimer up to c-ares: `cancel` asks for ares_cancel. */
    method Timer(ok: bool) returns (cancel: bool)
      modifies this
      ensures View() == Fired(old(View()), ok)
      ensures cancel <==> ok && !old(destroying) && old(failing) && old(active)
    {
      cancel := false;
      if !ok || destroying {
        return;
      }
      if failing {
        failing := false;
        forced := true;
        cancel := active;
      }
    }
  }

  predicate CanBegin(q: Query) { !q.destroying && !q.active }

  function Began(q: Query, id: nat, port: nat): Query { q.(port := port, callback := Some(id), active := true) }

  function Fired(q: Query, ok: bool): Query {
    if ok && !q.destroying && q.failing then q.(failing := false, forced := true) else q
  }

  // ------------------------------------------------------------------------------- runs

  const CANCEL := Answer(AresCancelled, None, true)

  /** Queries are numbered as they are accepted; `told` is what callbacks were called with. */
  datatype State = State(q: Query, started: nat, told: seq<(nat, Outcome)>)

  datatype Event =
    | Resolve(port: nat)
    | Reply(a: Answer)       // c-ares answers the outstanding query
    | Cancel
    | Break                  // the adapter fails to follow a socket change
    | Timer(ok: bool)
    | Shutdown

  predicate Enabled(s: State, e: Event) {
    e.Reply? ==> s.q.active
  }

  function Settle(s: State, a: Answer): State {
    var (q, call) := OnResolved(s.q, a);
    State(q, s.started, s.told + if call.Some? then [call.value] else [])
  }

  function Step(s: State, e: Event): State
    requires Enabled(s, e)
  {
    match e
    case Resolve(port) =>
      if CanBegin(s.q) then State(Began(s.q, s.started, port), s.started + 1, s.told) else s
    case Reply(a) => Settle(s, a)
    case Cancel => if s.q.active then Settle(s, CANCEL) else s
    case Break => s.(q := s.q.(failing := true))
    case Timer(ok) =>
      var s1 := s.(q := Fired(s.q, ok));
      if ok && !s.q.destroying && s.q.failing && s.q.active then Settle(s1, CANCEL) else s1
    case Shutdown =>
      if s.q.destroying then s
      else
        var s1 := s.(q := s.q.(destroying := true));
        if s.q.active then Settle(s1, CANCEL) else s1
  }

  const START := State(NEW_QUERY, 0, [])

  ghost predicate IsRun(ss: seq<State>, es: seq<Event>) {
    && |ss| == |es| + 1
    && ss[0] == START
    && forall i | 0 <= i < |es| :: Enabled(ss[i], es[i]) && ss[i + 1] == Step(ss[i], es[i])
  }

  /** The queries told so far are the first ones, in order; at most the last is outstanding. */
  ghost predicate Inv(s: State) {
    && (forall i | 0 <= i < |s.told| :: s.told[i].0 == i)
    && s.started == |s.told| + (if s.q.active then 1 else 0)
    && s.q.callback == (if s.q.active then Some(|s.told|) else None)
    && (s.q.destroying ==> !s.q.active)
  }

  lemma StepKeeps(s: State, e: Event)
    requires Inv(s) && Enabled(s, e)
    ensures Inv(Step(s, e))
  {
  }

  lemma {:induction false} RunKeeps(ss: seq<State>, es: seq<Event>, k: nat)
    requires IsRun(ss, es) && k < |ss|
    ensures Inv(ss[k])
  {
    if k > 0 {
      RunKeeps(ss, es, k - 1);
      StepKeeps(ss[k - 1], es[k - 1]);
    }
  }

  /** Each accepted query is called back once, in order, whatever cancels, timers and failures
      come between; after shutdown none is outstanding. */
  lemma CalledBackOnce(ss: seq<State>, es: seq<Event>, k: nat)
    requires IsRun(ss, es) && k < |ss|
    ensures forall i | 0 <= i < |ss[k].told| :: ss[k].told[i].0 == i
    ensures |ss[k].told| <= ss[k].started <= |ss[k].told| + 1
    ensures !ss[k].q.active || ss[k].q.destroying ==> |ss[k].told| == ss[k].started
  {
    RunKeeps(ss, es, k);
  }

  // ------------------------------------------------------- failures that outlive a query

  /** Timers that fire while query `|s.told|` runs. */
  function Timers(s: State, ts: seq<bool>): State {
    if ts == [] then s else Step(Timers(s, ts[..|ts| - 1]), Timer(ts[|ts| - 1]))
  }

  /** What the running query is told when nothing breaks while it runs and c-ares finds
      addresses: the answer to `a`, unless a timer has ended the query before. */
  function Told(s: State, ts: seq<bool>, a: Answer): Outcome {
    var s1 := Timers(s, ts);
    var s2 := if s1.q.active then Settle(s1, a) else s1;
    if |s2.told| > |s.told| then s2.told[|s.told|].1 else Failed
  }

  lemma {:induction false} QuietTimers(s: State, ts: seq<bool>)
    requires !s.q.failing
    ensures Timers(s, ts) == s
  {
    if ts != [] {
      QuietTimers(s, ts[..|ts| - 1]);
    }
  }

  /** A query that meets no failure of its own is told the addresses c-ares found, for all
      timers, exactly when no failure was left over when it began: a failure noticed between
      two queries is charged to the second. */
  lemma ToldExactlyWhen(s: State, a: Answer)
    requires Inv(s) && s.q.active
    requires Classify(a, s.q.port).Addresses?
    ensures (forall ts :: Told(s, ts, a) == Classify(a, s.q.port)) <==> !s.q.failing && !s.q.forced
  {
    if !s.q.failing && !s.q.forced {
      forall ts ensures Told(s, ts, a) == Classify(a, s.q.port) {
        QuietTimers(s, ts);
      }
    } else if s.q.forced {
      assert Told(s, [], a) == Failed;
    } else {
      var s1 := Step(s, Timer(true));
      assert Timers(s, [true]) == s1 by {
        assert [true][..0] == [];
      }
      assert s1.told == s.told + [(|s.told|, Failed)];
      assert Told(s, [true], a) == Failed;
    }
  }

  /** Such a leftover is reachable: the first query succeeds before the timer of a failure
      fires, and the second, whose addresses are found, is told that it failed. */
  lemma LeftoverFailure(found: Answer)
    requires Classify(found, 0).Addresses?
    ensures exists ss: seq<State>, es: seq<Event> ::
              && IsRun(ss, es)
              && es == [Resolve(0), Break, Reply(found), Timer(true), Resolve(0), Reply(found)]
              && ss[6].told == [(0, Classify(found, 0)), (1, Failed)]
  {
    var es := [Resolve(0), Break, Reply(found), Timer(true), Resolve(0), Reply(found)];
    var s1 := Step(START, es[0]);
    var s2 := Step(s1, es[1]);
    var s3 := Step(s2, es[2]);
    var s4 := Step(s3, es[3]);
    var s5 := Step(s4, es[4]);
    var s6 := Step(s5, es[5]);
    var ss := [START, s1, s2, s3, s4, s5, s6];
    assert IsRun(ss, es) && ss[6].told == [(0, Classify(found, 0)), (1, Failed)];
  }

  // ------------------------------------------------------------- what a callback is told

  /** The positions of the IPv4 results, in order. */
  function Positions(nodes: seq<Node>): seq<nat> {
    if nodes == [] then []
    else Positions(nodes[..|nodes| - 1]) + if nodes[|nodes| - 1].V4? then [|nodes| - 1] else []
  }

  /** The positions are increasing, and hit every IPv4 result and nothing else. */
  lemma {:induction false} PositionsExact(nodes: seq<Node>)
    ensures forall i | 0 <= i < |Positions(nodes)| :: Positions(nodes)[i] < |nodes| && nodes[Positions(nodes)[i]].V4?
    ensures forall i, j | 0 <= i < j < |Positions(nodes)| :: Positions(nodes)[i] < Positions(nodes)[j]
    ensures forall n | 0 <= n < |nodes| && nodes[n].V4? :: n in Positions(nodes)
  {
    if nodes != [] {
      PositionsExact(nodes[..|nodes| - 1]);
    }
  }

  /** The list is the IPv4 results in the order c-ares gave them, each with the port asked for. */
  lemma {:induction false} ListExact(nodes: seq<Node>, port: nat)
    ensures |V4s(nodes, port)| == |Positions(nodes)|
    ensures forall i | 0 <= i < |Positions(nodes)| ::
              && Positions(nodes)[i] < |nodes| && nodes[Positions(nodes)[i]].V4?
              && V4s(nodes, port)[i] == Address(nodes[Positions(nodes)[i]].address, port)
  {
    PositionsExact(nodes);
    if nodes != [] {
      ListExact(nodes[..|nodes| - 1], port);
    }
  }

  /** A query was cancelled, or found addresses, or failed: cancelled exactly if c-ares says that it
      was cancelled or destroyed, found exactly if it succeeded, there was room and one result
      is IPv4. */
  lemma ClassifyExact(a: Answer, port: nat)
    ensures Classify(a, port).Cancelled? <==> a.status in {AresCancelled, AresDestroyed}
    ensures Classify(a, port).Addresses? <==>
            a.status == Success && a.nodes.Some? && a.room && exists n | 0 <= n < |a.nodes.value| :: a.nodes.value[n].V4?
    ensures Classify(a, port).Addresses? ==> Classify(a, port).list == V4s(a.nodes.value, port)
  {
    if a.nodes.Some? {
      ListExact(a.nodes.value, port);
      PositionsExact(a.nodes.value);
      if Positions(a.nodes.value) != [] {
        assert a.nodes.value[Positions(a.nodes.value)[0]].V4?;
      }
    }
  }

  /** The port of the last accepted query: the one asked for while none was outstanding and the
      adapter was not shutting down. */
  ghost function PortOf(ss: seq<State>, es: seq<Event>, k: nat): nat
    requires IsRun(ss, es) && k < |ss|
  {
    if k == 0 then 0
    else if es[k - 1].Resolve? && !ss[k - 1].q.active && Shutdown !in es[..k - 1] then es[k - 1].port
    else PortOf(ss, es, k - 1)
  }

  lemma {:induction false} PortKept(ss: seq<State>, es: seq<Event>, k: nat)
    requires IsRun(ss, es) && k < |ss|
    ensures ss[k].q.port == PortOf(ss, es, k)
    ensures ss[k].q.destroying <==> Shutdown in es[..k]
    ensures k > 0 && es[k - 1].Resolve? && !ss[k - 1].q.active && Shutdown !in es[..k - 1] ==> ss[k].q.active
  {
    if k > 0 {
      PortKept(ss, es, k - 1);
      assert es[..k] == es[..k - 1] + [es[k - 1]];
    }
  }

  /** A failure is left to be charged: the adapter broke, a timer has fired since, and no callback
      has been made since that timer. */
  ghost predicate Charged(ss: seq<State>, es: seq<Event>, k: nat)
    requires IsRun(ss, es) && k < |ss|
  {
    k > 0 &&
    match es[k - 1]
    case Timer(ok) => (ok && Shutdown !in es[..k - 1] && Broken(es[..k - 1]) && |ss[k].told| == |ss[k - 1].told|)
                      || (Charged(ss, es, k - 1) && |ss[k].told| == |ss[k - 1].told|)
    case _ => Charged(ss, es, k - 1) && |ss[k].told| == |ss[k - 1].told|
  }

  /** The adapter broke and no timer has fired since. */
  predicate Broken(es: seq<Event>) {
    es != [] &&
    match es[|es| - 1]
    case Break => true
    case Timer(ok) => (!ok || Shutdown in es[..|es| - 1]) && Broken(es[..|es| - 1])
    case _ => Broken(es[..|es| - 1])
  }

  lemma {:induction false} FailureKept(ss: seq<State>, es: seq<Event>, k: nat)
    requires IsRun(ss, es) && k < |ss|
    ensures ss[k].q.failing <==> Broken(es[..k])
    ensures ss[k].q.forced <==> Charged(ss, es, k)
  {
    if k > 0 {
      FailureKept(ss, es, k - 1);
      PortKept(ss, es, k - 1);
      RunKeeps(ss, es, k - 1);
      assert es[..k][..k - 1] == es[..k - 1];
    }
  }

  /** What the callback of the outstanding query is told when c-ares answers: that it failed if a
      failure is left to be charged, and otherwise what the answer says, with its own port. */
  lemma ReplyTells(ss: seq<State>, es: seq<Event>, k: nat)
    requires IsRun(ss, es) && k < |es| && es[k].Reply?
    ensures ss[k + 1].told == ss[k].told + [(|ss[k].told|, if Charged(ss, es, k) then Failed
                                                           else Classify(es[k].a, PortOf(ss, es, k)))]
  {
    RunKeeps(ss, es, k);
    PortKept(ss, es, k);
    FailureKept(ss, es, k);
  }

  /** Cancel, Shutdown and the timer of a failure end an outstanding query at once, as cancelled,
      or as failed if a failure is charged to it. */
  lemma CancelTells(ss: seq<State>, es: seq<Event>, k: nat)
    requires IsRun(ss, es) && k < |es| && ss[k].q.active && !es[k].Reply?
    ensures ss[k + 1].told ==
            if es[k].Cancel? || es[k].Shutdown?
            then ss[k].told + [(|ss[k].told|, if Charged(ss, es, k) then Failed else Cancelled)]
            else if es[k] == Timer(true) && Broken(es[..k]) then ss[k].told + [(|ss[k].told|, Failed)]
            else ss[k].told
  {
    RunKeeps(ss, es, k);
    PortKept(ss, es, k);
    FailureKept(ss, es, k);
  }
}
