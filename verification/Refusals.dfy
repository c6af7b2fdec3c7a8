/** How the typed server layer answers the requests it refuses, told from the callbacks of a
    call alone (include/grpc_lite/cpp/typed_service.hpp). */
module Refusals {
  import opened Statuses
  import opened Registry
  import T = TypedCall
  import RequestStream

  /** A refusal with `code`, and how the transport answers its two commands. */
  datatype Attempt = Attempt(code: StatusCode, a: ErrorCode, b: ErrorCode)

  /** The messages have spoiled the call: a second one, or a first that is no request. */
  predicate Spoiled(ps: seq<Payload>) {
    |ps| > 1 || (|ps| == 1 && (ps[0].size > 0x7fff_ffff || ps[0].parsed.None?))
  }

  /** A first message that cannot be a request. */
  function Unfit(p: Payload, a: ErrorCode, b: ErrorCode): seq<Attempt> {
    if p.size > 0x7fff_ffff then [Attempt(8, a, b)] else if p.parsed.None? then [Attempt(3, a, b)] else []
  }

  /** What a single-request call refuses on `g` after `h`: a second message (3), a message too
      large (8) or unparsable (3), an end without a request (3) or without a handler (14). */
  function SingleAttempt(h: seq<Got>, g: Got): seq<Attempt> {
    var ps := Messages(h);
    if Ended(h) || Spoiled(ps) then []
    else
      match g
      case GotMessage(p, a, b) => if ps != [] then [Attempt(3, a, b)] else Unfit(p, a, b)
      case GotEnd(handler, a, b) =>
        if ps == [] then [Attempt(3, a, b)] else if handler then [] else [Attempt(14, a, b)]
      case _ => []
  }

  /** What a request stream that nobody reads refuses: a start without a handler (14), a message
      into the full slot (13), one too large (8) or unparsable (3). */
  function StreamAttempt(h: seq<Got>, g: Got): seq<Attempt> {
    var ps := Messages(h);
    match g
    case GotStart(handler, a, b) => if handler then [] else [Attempt(14, a, b)]
    case GotMessage(p, a, b) =>
      if Ended(h) || Spoiled(ps) then [] else if ps != [] then [Attempt(13, a, b)] else Unfit(p, a, b)
    case _ => []
  }

  function AttemptAt(streaming: bool, h: seq<Got>, g: Got): seq<Attempt> {
    if streaming then StreamAttempt(h, g) else SingleAttempt(h, g)
  }

  function Attempts(streaming: bool, h: seq<Got>): seq<Attempt> {
    if h == [] then []
    else Attempts(streaming, h[..|h| - 1]) + AttemptAt(streaming, h[..|h| - 1], h[|h| - 1])
  }

  /** What is on the wire after an attempt: initial metadata once, then trailers, once. */
  function After(t: T.Trace, x: Attempt): T.Trace {
    if T.Finished(t) || (t.Nil? && x.a != Ok) then t
    else
      var u := if t.Nil? then T.Then(T.Nil, T.InitialMetadata) else t;
      if x.b == Ok then T.Then(u, T.Trailers(x.code)) else u
  }

  function Answered(xs: seq<Attempt>): T.Trace {
    if xs == [] then T.Nil else After(Answered(xs[..|xs| - 1]), xs[|xs| - 1])
  }

  lemma AnsweredAfter(xs: seq<Attempt>, x: Attempt)
    ensures Answered(xs + [x]) == After(Answered(xs), x)
  {
    assert (xs + [x])[..|xs + [x]| - 1] == xs;
  }

  // ------------------------------------------------------------- the model answers so

  /** The call knows what is on the wire. */
  ghost predicate Knows(en: Entry) {
    T.Tracked(en.call, en.trace) && !en.call.terminal
  }

  lemma RefuseAnswers(en: Entry, x: Attempt)
    requires Knows(en)
    ensures Refuse(en, Some(x.code), x.a, x.b).trace == After(en.trace, x)
    ensures Knows(Refuse(en, Some(x.code), x.a, x.b))
  {
    T.FinishTracked(en.call, en.trace, x.code, x.a, x.b);
  }

  lemma {:induction false} EndIsTold(h: seq<Got>)
    ensures Ended(h) <==> BeforeEnd(h).Some?
  {
    if h != [] {
      EndIsTold(h[..|h| - 1]);
      ToldAfter(h[..|h| - 1], h[|h| - 1]);
      assert h == h[..|h| - 1] + [h[|h| - 1]];
    }
  }

  /** `r` is `en` after the attempts `xs`, at most one. */
  ghost predicate Tries(en: Entry, r: Entry, xs: seq<Attempt>) {
    Knows(r) && r.trace == (if xs == [] then en.trace else After(en.trace, xs[0])) && |xs| <= 1
  }

  lemma SingleTries(h: seq<Got>, g: Got)
    requires Knows(Replay(false, h))
    ensures Tries(Replay(false, h), Tell(false, Replay(false, h), g), SingleAttempt(h, g))
  {
    var en, xs := Replay(false, h), SingleAttempt(h, g);
    DispatchedExactlyWhen(h);
    EndIsTold(h);
    match g
    case GotMessage(p, a, b) =>
      var (s, code) := PutSingle(en.single, p);
      if code.Some? { RefuseAnswers(en.(single := s), Attempt(code.value, a, b)); }
    case GotEnd(handler, a, b) =>
      var (s, request, code) := TakeSingle(en.single);
      if request.Some? {
        RefuseAnswers(en.(single := s, taken := en.taken + [request.value]), Attempt(14, a, b));
      } else if code.Some? {
        RefuseAnswers(en.(single := s), Attempt(code.value, a, b));
      }
    case _ =>
  }

  lemma StreamTries(h: seq<Got>, g: Got)
    requires Knows(Replay(true, h))
    ensures Tries(Replay(true, h), Tell(true, Replay(true, h), g), StreamAttempt(h, g))
  {
    var en := Replay(true, h);
    FlagsTold(true, h);
    if !Ended(h) { BoxTold(h); }
    match g
    case GotStart(_, a, b) => RefuseAnswers(en, Attempt(14, a, b));
    case GotMessage(p, a, b) =>
      var code := StreamRefusal(en.box, p);
      if code.Some? { RefuseAnswers(en.(box := RequestStream.Put(en.box, p)), Attempt(code.value, a, b)); }
    case _ =>
  }

  /** Whatever a call is told, what is on the wire is the answer to its refusals and nothing else. */
  lemma {:induction false} RefusedExactlyWhen(streaming: bool, h: seq<Got>)
    ensures Replay(streaming, h).trace == Answered(Attempts(streaming, h))
    ensures Knows(Replay(streaming, h))
  {
    if h != [] {
      var init, g := h[..|h| - 1], h[|h| - 1];
      RefusedExactlyWhen(streaming, init);
      if streaming { StreamTries(init, g); } else { SingleTries(init, g); }
      var xs := AttemptAt(streaming, init, g);
      if xs == [] {
        assert Attempts(streaming, init) + xs == Attempts(streaming, init);
      } else {
        assert xs == [xs[0]];
        AnsweredAfter(Attempts(streaming, init), xs[0]);
      }
    }
  }

  /** Nothing is refused any more. */
  predicate Past(h: seq<Got>) { Ended(h) || Spoiled(Messages(h)) }

  lemma AttemptSpoils(h: seq<Got>, g: Got, ps: seq<Payload>)
    requires ps == Messages(h) + if g.GotMessage? then [g.p] else []
    ensures |SingleAttempt(h, g)| <= 1
    ensures SingleAttempt(h, g) != [] ==> !Past(h) && (g.GotEnd? || Spoiled(ps))
    ensures Spoiled(Messages(h)) ==> Spoiled(ps)
  {
  }

  lemma PastStep(h: seq<Got>)
    requires h != []
    ensures var init, g := h[..|h| - 1], h[|h| - 1];
            && |SingleAttempt(init, g)| <= 1
            && (SingleAttempt(init, g) != [] ==> !Past(init) && Past(h))
            && (Past(init) ==> Past(h))
  {
    var init, g := h[..|h| - 1], h[|h| - 1];
    AttemptSpoils(init, g, Messages(h));
    ToldAfter(init, g);
    assert h == init + [g];
  }

  lemma AddsUp(n: nat, m: nat, past: bool, past': bool)
    requires n <= 1 && (n > 0 ==> past) && m <= 1 && (m > 0 ==> !past && past') && (past ==> past')
    ensures n + m <= 1 && (n + m > 0 ==> past')
  {
  }

  lemma {:induction false} SingleSpoils(h: seq<Got>)
    ensures |Attempts(false, h)| <= 1
    ensures |Attempts(false, h)| > 0 ==> Past(h)
  {
    if h != [] {
      var init, g := h[..|h| - 1], h[|h| - 1];
      SingleSpoils(init);
      PastStep(h);
      AddsUp(|Attempts(false, init)|, |SingleAttempt(init, g)|, Past(init), Past(h));
    }
  }

  /** A single-request call is refused at most once. Until then nothing is on the wire; a refusal
      the transport takes leaves initial metadata and trailers with its code, for good. */
  lemma RefusedOnce(h: seq<Got>)
    ensures |Attempts(false, h)| <= 1
    ensures Attempts(false, h) == [] ==> Replay(false, h).trace == T.Nil
    ensures forall code :: Attempts(false, h) == [Attempt(code, Ok, Ok)] ==>
              Replay(false, h).trace == T.Then(T.Then(T.Nil, T.InitialMetadata), T.Trailers(code))
  {
    SingleSpoils(h);
    RefusedExactlyWhen(false, h);
    forall code | Attempts(false, h) == [Attempt(code, Ok, Ok)]
      ensures Replay(false, h).trace == T.Then(T.Then(T.Nil, T.InitialMetadata), T.Trailers(code))
    {
      AnsweredAfter([], Attempt(code, Ok, Ok));
      assert [] + [Attempt(code, Ok, Ok)] == Attempts(false, h);
    }
  }

  lemma {:induction false} FirstAnswerStays(xs: seq<Attempt>)
    requires xs != [] && xs[0].a == Ok && xs[0].b == Ok
    ensures Answered(xs) == T.Then(T.Then(T.Nil, T.InitialMetadata), T.Trailers(xs[0].code))
  {
    var init := xs[..|xs| - 1];
    if init == [] {
      assert Answered(init) == T.Nil;
    } else {
      FirstAnswerStays(init);
    }
  }

  /** The same for a request stream: the first refusal the transport takes is the last word. */
  lemma StreamRefusedOnce(h: seq<Got>)
    requires Attempts(true, h) != [] && Attempts(true, h)[0].a == Ok && Attempts(true, h)[0].b == Ok
    ensures Replay(true, h).trace == T.Then(T.Then(T.Nil, T.InitialMetadata), T.Trailers(Attempts(true, h)[0].code))
  {
    RefusedExactlyWhen(true, h);
    FirstAnswerStays(Attempts(true, h));
  }

  /** Over any events of any number of calls: the wire of a registered call carries the answer to
      the refusals its own callbacks call for. */
  lemma CallsRefusedExactlyWhen(streaming: bool, es: seq<Event>, id: nat)
    requires Registered(es, id)
    ensures id in Exec(streaming, es).calls
    ensures Exec(streaming, es).calls[id].trace == Answered(Attempts(streaming, Mine(es, id)))
  {
    RegistryExact(streaming, es, id);
    RefusedExactlyWhen(streaming, Mine(es, id));
  }

  /** And so does the wire of a call that has just ended, which is terminal from then on. */
  lemma EndedRefusedExactlyWhen(streaming: bool, es: seq<Event>, id: nat)
    requires Registered(es, id)
    ensures var r := Exec(streaming, es + [Terminal(id)]);
            && |r.ended| > 0 && r.ended[|r.ended| - 1].0 == id && id !in r.calls
            && r.ended[|r.ended| - 1].1.trace == Answered(Attempts(streaming, Mine(es, id)))
            && r.ended[|r.ended| - 1].1.call.terminal
  {
    CallsRefusedExactlyWhen(streaming, es, id);
    assert (es + [Terminal(id)])[..|es + [Terminal(id)]| - 1] == es;
  }
}
