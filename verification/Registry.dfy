/** TypedMethodRegistration: the calls of one registered method, fed by the callbacks of any
    number of live streams (include/grpc_lite/cpp/typed_service.hpp). */
module Registry {
  import opened Statuses
  import opened TypedCall
  import RequestStream

  type Payload = RequestStream.Payload

  // ------------------------------------------------------------- single-request calls

  /** The request of a unary or server-streaming call. */
  datatype Single = Single(request: Option<string>, count: nat, rejected: bool, dispatched: bool)

  const NEW_SINGLE := Single(None, 0, false, false)

  predicate Usable(p: Payload) { p.size <= RequestStream.INT_MAX && p.parsed.Some? }

  /** OnMessage; the second part is the status of a refusal. */
  function PutSingle(s: Single, p: Payload): (Single, Option<StatusCode>) {
    if s.rejected || s.dispatched then (s, None)
    else if s.count != 0 then (s.(rejected := true), Some(INVALID_ARGUMENT))
    else if p.size > RequestStream.INT_MAX then (s.(count := 1, rejected := true), Some(RESOURCE_EXHAUSTED))
    else if p.parsed.None? then (s.(count := 1, rejected := true), Some(INVALID_ARGUMENT))
    else (s.(count := 1, request := p.parsed), None)
  }

  /** TakeRequest: the request to dispatch, or the status of a refusal, or neither. */
  function TakeSingle(s: Single): (Single, Option<string>, Option<StatusCode>) {
    if s.rejected || s.dispatched then (s, None, None)
    else if s.count != 1 || s.request.None? then (s.(rejected := true), None, Some(INVALID_ARGUMENT))
    else (s.(dispatched := true), s.request, None)
  }

  // ------------------------------------------------------------------------ one call

  /** What one call is told. `handler` says whether an application handler was installed;
      `a` and `b` answer the commands of a refusal. */
  datatype Got =
    | GotStart(handler: bool, a: ErrorCode, b: ErrorCode)
    | GotMessage(p: Payload, a: ErrorCode, b: ErrorCode)
    | GotEnd(handler: bool, a: ErrorCode, b: ErrorCode)
    | GotWritable
    | GotCancel

  /** `taken` are the requests dispatched, `runs` those that reached a handler; `streamRuns` counts
      the handlers started on a request stream. */
  datatype Entry = Entry(
    call: Call, trace: Trace, single: Single, box: RequestStream.Mailbox,
    taken: seq<string>, runs: seq<string>, streamRuns: nat)

  const NEW_ENTRY := Entry(NEW_CALL, Nil, NEW_SINGLE, RequestStream.NEW_MAILBOX, [], [], 0)

  function Refuse(en: Entry, code: Option<StatusCode>, a: ErrorCode, b: ErrorCode): Entry {
    if code.None? then en
    else
      var r := Finish(en.call, en.trace, code.value, a, b);
      en.(call := r.call, trace := r.trace)
  }

  function StreamRefusal(box: RequestStream.Mailbox, p: Payload): Option<StatusCode> {
    var v := RequestStream.Judge(box, p);
    if v.Refused? then Some(RequestStream.RefusalCode(v.why)) else None
  }

  function Tell(streaming: bool, en: Entry, g: Got): Entry {
    match g
    case GotStart(handler, a, b) =>
      if !streaming then en
      else if handler then en.(streamRuns := en.streamRuns + 1)
      else Refuse(en, Some(UNAVAILABLE), a, b)
    case GotMessage(p, a, b) =>
      if streaming then
        Refuse(en.(box := RequestStream.Put(en.box, p)), StreamRefusal(en.box, p), a, b)
      else
        var (s, code) := PutSingle(en.single, p);
        Refuse(en.(single := s), code, a, b)
    case GotEnd(handler, a, b) =>
      if streaming then en.(box := en.box.(remoteEnd := true))
      else
        var (s, request, code) := TakeSingle(en.single);
        var e1 := en.(single := s);
        if request.Some? then
          var e2 := e1.(taken := en.taken + [request.value]);
          if handler then e2.(runs := en.runs + [request.value]) else Refuse(e2, Some(UNAVAILABLE), a, b)
        else Refuse(e1, code, a, b)
    case GotWritable => en.(call := OnWritable(en.call))
    case GotCancel =>
      en.(call := OnCancel(en.call), box := if streaming then en.box.(cancelled := true) else en.box)
  }

  function End(streaming: bool, en: Entry): Entry {
    en.(call := OnTerminal(en.call), box := if streaming then en.box.(terminal := true) else en.box)
  }

  /** A call after all it was told. */
  function Replay(streaming: bool, h: seq<Got>): Entry {
    if h == [] then NEW_ENTRY else Tell(streaming, Replay(streaming, h[..|h| - 1]), h[|h| - 1])
  }

  // --------------------------------------------------------------------- the registry

  /** A callback of the transport. `found` says whether the stream could be retained. */
  datatype Event =
    | Start(id: nat, found: bool, a: ErrorCode, b: ErrorCode)
    | Message(id: nat, found: bool, p: Payload, a: ErrorCode, b: ErrorCode)
    | RemoteEnd(id: nat, found: bool, a: ErrorCode, b: ErrorCode)
    | Writable(id: nat, found: bool)
    | Cancel(id: nat, found: bool)
    | Terminal(id: nat)
    | Disable

  /** `ended` are the calls OnTerminal has reached, in order. */
  datatype Reg = Reg(calls: map<nat, Entry>, handler: bool, ended: seq<(nat, Entry)>)

  function Pass(streaming: bool, r: Reg, id: nat, found: bool, g: Got): Reg {
    if found && id in r.calls then r.(calls := r.calls[id := Tell(streaming, r.calls[id], g)]) else r
  }

  function Step(streaming: bool, r: Reg, e: Event): Reg {
    match e
    case Start(id, found, a, b) =>
      if found then r.(calls := r.calls[id := Tell(streaming, NEW_ENTRY, GotStart(r.handler, a, b))]) else r
    case Message(id, found, p, a, b) => Pass(streaming, r, id, found, GotMessage(p, a, b))
    case RemoteEnd(id, found, a, b) => Pass(streaming, r, id, found, GotEnd(r.handler, a, b))
    case Writable(id, found) => Pass(streaming, r, id, found, GotWritable)
    case Cancel(id, found) => Pass(streaming, r, id, found, GotCancel)
    case Terminal(id) =>
      if id !in r.calls then r
      else r.(calls := r.calls - {id}, ended := r.ended + [(id, End(streaming, r.calls[id]))])
    case Disable => r.(handler := false)
  }

  function Exec(streaming: bool, es: seq<Event>): Reg {
    if es == [] then Reg(map[], true, []) else Step(streaming, Exec(streaming, es[..|es| - 1]), es[|es| - 1])
  }

  // ------------------------------------------------- what each call should have seen

  /** Started, and not ended since. */
  predicate Registered(es: seq<Event>, id: nat) {
    es != [] &&
    var e, before := es[|es| - 1], es[..|es| - 1];
    match e
    case Start(i, found, _, _) => (i == id && found) || Registered(before, id)
    case Terminal(i) => i != id && Registered(before, id)
    case _ => Registered(before, id)
  }

  predicate Enabled(es: seq<Event>) {
    Disable !in es
  }

  /** What the call now registered under `id` was told, and nothing of the other calls. */
  function Mine(es: seq<Event>, id: nat): seq<Got> {
    if es == [] then []
    else
      var e, before := es[|es| - 1], es[..|es| - 1];
      match e
      case Start(i, found, a, b) =>
        if i == id && found then [GotStart(Enabled(before), a, b)] else Mine(before, id)
      case Message(i, found, p, a, b) =>
        if i == id && found then Mine(before, id) + [GotMessage(p, a, b)] else Mine(before, id)
      case RemoteEnd(i, found, a, b) =>
        if i == id && found then Mine(before, id) + [GotEnd(Enabled(before), a, b)] else Mine(before, id)
      case Writable(i, found) => if i == id && found then Mine(before, id) + [GotWritable] else Mine(before, id)
      case Cancel(i, found) => if i == id && found then Mine(before, id) + [GotCancel] else Mine(before, id)
      case _ => Mine(before, id)
  }

  lemma ReplayTell(streaming: bool, h: seq<Got>, g: Got)
    ensures Replay(streaming, h + [g]) == Tell(streaming, Replay(streaming, h), g)
  {
    assert (h + [g])[..|h + [g]| - 1] == h;
  }

  lemma {:induction false} HandlerStays(streaming: bool, es: seq<Event>)
    ensures Exec(streaming, es).handler <==> Enabled(es)
  {
    if es != [] {
      HandlerStays(streaming, es[..|es| - 1]);
      assert es == es[..|es| - 1] + [es[|es| - 1]];
    }
  }

  /** Isolation: whatever the other calls do, the registry holds exactly the calls that have
      started and not ended, each in the state its own callbacks alone lead to. */
  lemma {:induction false} RegistryExact(streaming: bool, es: seq<Event>, id: nat)
    ensures id in Exec(streaming, es).calls <==> Registered(es, id)
    ensures Registered(es, id) ==> Exec(streaming, es).calls[id] == Replay(streaming, Mine(es, id))
  {
    if es != [] {
      var before, e := es[..|es| - 1], es[|es| - 1];
      RegistryExact(streaming, before, id);
      HandlerStays(streaming, before);
      var h, h' := Mine(before, id), Mine(es, id);
      if e.Start? && e.id == id && e.found {
        ReplayTell(streaming, [], h'[0]);
        assert [] + [h'[0]] == h';
      } else if |h'| == |h| + 1 && h' == h + [h'[|h|]] {
        ReplayTell(streaming, h, h'[|h|]);
      }
    }
  }

  // --------------------------------------------------------------- OnTerminal, once

  /** Calls that have reached the end, in order: the ids ended while registered. */
  function Endings(es: seq<Event>): seq<nat> {
    if es == [] then []
    else
      var before, e := es[..|es| - 1], es[|es| - 1];
      Endings(before) + (if e.Terminal? && Registered(before, e.id) then [e.id] else [])
  }

  function Ids(ended: seq<(nat, Entry)>): seq<nat> {
    if ended == [] then [] else Ids(ended[..|ended| - 1]) + [ended[|ended| - 1].0]
  }

  lemma IdsAfter(ended: seq<(nat, Entry)>, x: (nat, Entry))
    ensures Ids(ended + [x]) == Ids(ended) + [x.0]
  {
    assert (ended + [x])[..|ended + [x]| - 1] == ended;
  }

  /** OnTerminal reaches exactly the registered calls whose end is reported. */
  lemma {:induction false} EndsReached(streaming: bool, es: seq<Event>)
    ensures Ids(Exec(streaming, es).ended) == Endings(es)
  {
    if es != [] {
      var before, e := es[..|es| - 1], es[|es| - 1];
      EndsReached(streaming, before);
      if e.Terminal? {
        RegistryExact(streaming, before, e.id);
        var r := Exec(streaming, before);
        if e.id in r.calls {
          IdsAfter(r.ended, (e.id, End(streaming, r.calls[e.id])));
        }
      }
    }
  }

  function Count(s: seq<nat>, x: nat): nat {
    if s == [] then 0 else Count(s[..|s| - 1], x) + if s[|s| - 1] == x then 1 else 0
  }

  function Starts(es: seq<Event>, id: nat): nat {
    if es == [] then 0
    else Starts(es[..|es| - 1], id) + if es[|es| - 1].Start? && es[|es| - 1].id == id && es[|es| - 1].found then 1 else 0
  }

  lemma CountAfter(s: seq<nat>, y: nat, x: nat)
    ensures Count(s + [y], x) == Count(s, x) + if y == x then 1 else 0
  {
    assert (s + [y])[..|s + [y]| - 1] == s;
  }

  /** At most once: a call is ended no more often than it is started, and not while it is
      registered, however often the transport reports the end. */
  lemma {:induction false} EndsAtMostOnce(es: seq<Event>, id: nat)
    ensures Count(Endings(es), id) + (if Registered(es, id) then 1 else 0) <= Starts(es, id)
  {
    if es != [] {
      var before, e := es[..|es| - 1], es[|es| - 1];
      EndsAtMostOnce(before, id);
      if e.Terminal? {
        CountAfter(Endings(before), e.id, id);
        assert Endings(before) + [] == Endings(before);
      } else {
        assert Endings(es) == Endings(before);
      }
    }
  }

  // ------------------------------------------------------------------ dispatch, once

  /** The messages a call got before it was told of the remote end; None while it was not. */
  function BeforeEnd(h: seq<Got>): Option<seq<Payload>> {
    if h == [] then None
    else
      var before := BeforeEnd(h[..|h| - 1]);
      if before.Some? then before
      else if h[|h| - 1].GotEnd? then Some(Messages(h[..|h| - 1]))
      else None
  }

  function Messages(h: seq<Got>): seq<Payload> {
    if h == [] then []
    else Messages(h[..|h| - 1]) + if h[|h| - 1].GotMessage? then [h[|h| - 1].p] else []
  }

  /** What the request slot holds, told from the messages alone. */
  predicate Mirrors(s: Single, ps: seq<Payload>) {
    && !s.dispatched
    && s.rejected == (|ps| > 1 || (|ps| == 1 && !Usable(ps[0])))
    && (!s.rejected ==> s.count == |ps| && s.request == if |ps| == 1 then ps[0].parsed else None)
  }

  lemma PutMirrors(s: Single, ps: seq<Payload>, p: Payload)
    requires Mirrors(s, ps)
    ensures Mirrors(PutSingle(s, p).0, ps + [p])
  {
  }

  function Expected(h: seq<Got>): seq<string> {
    match BeforeEnd(h)
    case None => []
    case Some(ps) => if |ps| == 1 && Usable(ps[0]) then [ps[0].parsed.value] else []
  }

  /** Exactly when: a single-request call dispatches its request once if exactly one message
      came before the remote end and it is parsable and within INT_MAX, and never otherwise. */
  lemma {:induction false} DispatchedExactlyWhen(h: seq<Got>)
    ensures Replay(false, h).taken == Expected(h)
    ensures if BeforeEnd(h).None? then Mirrors(Replay(false, h).single, Messages(h))
            else Replay(false, h).single.rejected || Replay(false, h).single.dispatched
  {
    if h != [] {
      DispatchedExactlyWhen(h[..|h| - 1]);
      if h[|h| - 1].GotMessage? && BeforeEnd(h[..|h| - 1]).None? {
        PutMirrors(Replay(false, h[..|h| - 1]).single, Messages(h[..|h| - 1]), h[|h| - 1].p);
      }
    }
  }

  /** Whether a handler was installed when a call was first told of the remote end. */
  function FirstEnd(h: seq<Got>): Option<bool> {
    if h == [] then None
    else
      var before := FirstEnd(h[..|h| - 1]);
      if before.Some? then before
      else if h[|h| - 1].GotEnd? then Some(h[|h| - 1].handler)
      else None
  }

  lemma {:induction false} EndsTogether(h: seq<Got>)
    ensures FirstEnd(h).None? <==> BeforeEnd(h).None?
  {
    if h != [] {
      EndsTogether(h[..|h| - 1]);
    }
  }

  /** The handler runs exactly on the request dispatched, and exactly if one was installed when
      the remote end came. */
  lemma {:induction false} RunsExactlyWhen(h: seq<Got>)
    ensures Replay(false, h).runs == if FirstEnd(h) == Some(true) then Expected(h) else []
  {
    if h != [] {
      var before := h[..|h| - 1];
      RunsExactlyWhen(before);
      DispatchedExactlyWhen(before);
      DispatchedExactlyWhen(h);
      EndsTogether(before);
    }
  }

  /** Over any event sequence, and whatever the other calls do: a registered call has dispatched
      exactly the request its own callbacks call for, and its handler has run exactly on that
      request if one was installed when the remote end came, and not at all otherwise. */
  lemma HandlerRunsExactlyWhen(es: seq<Event>, id: nat)
    requires Registered(es, id)
    ensures id in Exec(false, es).calls
    ensures Exec(false, es).calls[id].taken == Expected(Mine(es, id))
    ensures Exec(false, es).calls[id].runs ==
            if FirstEnd(Mine(es, id)) == Some(true) then Expected(Mine(es, id)) else []
  {
    RegistryExact(false, es, id);
    DispatchedExactlyWhen(Mine(es, id));
    RunsExactlyWhen(Mine(es, id));
  }

  /** Everything a call was told comes after its start. */
  lemma {:induction false} StartsFirst(es: seq<Event>, id: nat)
    requires Registered(es, id)
    ensures Mine(es, id) != [] && Mine(es, id)[0].GotStart?
    ensures forall i | 1 <= i < |Mine(es, id)| :: !Mine(es, id)[i].GotStart?
  {
    var before, e := es[..|es| - 1], es[|es| - 1];
    if !(e.Start? && e.id == id && e.found) {
      StartsFirst(before, id);
    }
  }

  lemma {:induction false} OpenedAtStart(h: seq<Got>)
    requires h != [] && h[0].GotStart? && forall i | 1 <= i < |h| :: !h[i].GotStart?
    ensures Replay(true, h).streamRuns == if h[0].handler then 1 else 0
  {
    var init := h[..|h| - 1];
    if init == [] {
      assert Replay(true, init) == NEW_ENTRY;
    } else {
      OpenedAtStart(init);
    }
  }

  /** The handler of a request stream runs once, when the call starts, if one is installed. */
  lemma StreamHandlerOnce(es: seq<Event>, id: nat)
    requires Registered(es, id)
    ensures id in Exec(true, es).calls && Mine(es, id) != [] && Mine(es, id)[0].GotStart?
    ensures Exec(true, es).calls[id].streamRuns == if Mine(es, id)[0].handler then 1 else 0
  {
    RegistryExact(true, es, id);
    StartsFirst(es, id);
    OpenedAtStart(Mine(es, id));
  }

  // -------------------------------------------------------------------- what is passed on

  predicate Ended(h: seq<Got>) { exists g | g in h :: g.GotEnd? }

  predicate WasCancelled(h: seq<Got>) { exists g | g in h :: g.GotCancel? }

  lemma ToldAfter(h: seq<Got>, g: Got)
    ensures Ended(h + [g]) <==> Ended(h) || g.GotEnd?
    ensures WasCancelled(h + [g]) <==> WasCancelled(h) || g.GotCancel?
  {
    assert g in h + [g];
    assert forall x | x in h :: x in h + [g];
  }

  /** `r` knows of the same end and cancellation as `en`. */
  predicate SameFlags(en: Entry, r: Entry) {
    && r.call.cancelled == en.call.cancelled && r.call.terminal == en.call.terminal
    && r.box.remoteEnd == en.box.remoteEnd && r.box.cancelled == en.box.cancelled
    && r.box.terminal == en.box.terminal
  }

  lemma RefuseFlags(en: Entry, code: Option<StatusCode>, a: ErrorCode, b: ErrorCode)
    ensures SameFlags(en, Refuse(en, code, a, b))
  {
  }

  lemma StreamMessageFlags(en: Entry, p: Payload, a: ErrorCode, b: ErrorCode)
    ensures SameFlags(en, Tell(true, en, GotMessage(p, a, b)))
  {
    RefuseFlags(en.(box := RequestStream.Put(en.box, p)), StreamRefusal(en.box, p), a, b);
  }

  lemma SingleMessageFlags(en: Entry, p: Payload, a: ErrorCode, b: ErrorCode)
    ensures SameFlags(en, Tell(false, en, GotMessage(p, a, b)))
  {
    var (s, code) := PutSingle(en.single, p);
    RefuseFlags(en.(single := s), code, a, b);
  }

  lemma SingleEndFlags(en: Entry, handler: bool, a: ErrorCode, b: ErrorCode)
    ensures SameFlags(en, Tell(false, en, GotEnd(handler, a, b)))
  {
    var (s, request, code) := TakeSingle(en.single);
    if request.Some? {
      RefuseFlags(en.(single := s, taken := en.taken + [request.value]), Some(UNAVAILABLE), a, b);
    } else {
      RefuseFlags(en.(single := s), code, a, b);
    }
  }

  lemma TellFlags(streaming: bool, en: Entry, g: Got)
    ensures var r := Tell(streaming, en, g);
            && r.call.cancelled == (en.call.cancelled || g.GotCancel?)
            && r.box.remoteEnd == (en.box.remoteEnd || (streaming && g.GotEnd?))
            && r.box.cancelled == (en.box.cancelled || (streaming && g.GotCancel?))
            && r.call.terminal == en.call.terminal && r.box.terminal == en.box.terminal
  {
    match g
    case GotStart(_, a, b) => RefuseFlags(en, Some(UNAVAILABLE), a, b);
    case GotMessage(p, a, b) =>
      if streaming { StreamMessageFlags(en, p, a, b); } else { SingleMessageFlags(en, p, a, b); }
    case GotEnd(handler, a, b) => if !streaming { SingleEndFlags(en, handler, a, b); }
    case _ =>
  }

  /** A call knows of its cancellation, and a request stream of its end and its cancellation,
      exactly when its own callbacks reported them. */
  lemma {:induction false} FlagsTold(streaming: bool, h: seq<Got>)
    ensures Replay(streaming, h).call.cancelled <==> WasCancelled(h)
    ensures Replay(streaming, h).box.remoteEnd <==> streaming && Ended(h)
    ensures Replay(streaming, h).box.cancelled <==> streaming && WasCancelled(h)
    ensures !Replay(streaming, h).call.terminal && !Replay(streaming, h).box.terminal
  {
    if h != [] {
      FlagsTold(streaming, h[..|h| - 1]);
      TellFlags(streaming, Replay(streaming, h[..|h| - 1]), h[|h| - 1]);
      ToldAfter(h[..|h| - 1], h[|h| - 1]);
      assert h == h[..|h| - 1] + [h[|h| - 1]];
    }
  }

  /** What the request stream of a call holds, told from its messages alone: the first one, if
      it is usable, and a rejection as soon as that fails or another comes before the end. */
  lemma {:induction false} BoxTold(h: seq<Got>)
    requires !Ended(h)
    ensures var b, ps := Replay(true, h).box, Messages(h);
            && b.rejected == (|ps| > 1 || (|ps| == 1 && !Usable(ps[0])))
            && b.message == if ps != [] && Usable(ps[0]) then ps[0].parsed else None
  {
    if h != [] {
      var init := h[..|h| - 1];
      ToldAfter(init, h[|h| - 1]);
      assert h == init + [h[|h| - 1]];
      BoxTold(init);
      FlagsTold(true, init);
    }
  }
}
