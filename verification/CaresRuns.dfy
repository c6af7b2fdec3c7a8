/** Whole callbacks of the c-ares adapter and every sequence of them. */
module CaresRuns {
  import opened CaresSpec
  import opened Statuses

  /** A stretch of nested callbacks made by one call into c-ares. */
  predicate CanScript<I>(a: World<I>, script: seq<Nested<I>>)
    requires Agree(a) && Paired(a)
    decreases |script|, 0
  {
    script == [] ||
    (CanScript(a, script[..|script| - 1]) && CanNest(RunScript(a, script[..|script| - 1]), script[|script| - 1]))
  }

  function RunScript<I>(a: World<I>, script: seq<Nested<I>>): (r: World<I>)
    requires Agree(a) && Paired(a) && CanScript(a, script)
    ensures Agree(r) && Paired(r)
    decreases |script|, 1
  {
    if script == [] then a
    else
      var before := RunScript(a, script[..|script| - 1]);
      NestPairs(before, script[|script| - 1]);
      Nest(before, script[|script| - 1])
  }

  lemma ScriptExtends<I>(a: World<I>, script: seq<Nested<I>>, n: Nested<I>)
    requires Agree(a) && Paired(a) && CanScript(a, script) && CanNest(RunScript(a, script), n)
    ensures CanScript(a, script + [n])
    ensures RunScript(a, script + [n]) == Nest(RunScript(a, script), n)
  {
    assert (script + [n])[..|script|] == script;
  }

  lemma {:induction false} ScriptKeeps<I>(a: World<I>, script: seq<Nested<I>>)
    requires Mid(a) && CanScript(a, script)
    ensures Kept(a, RunScript(a, script))
    decreases |script|
  {
    if script != [] {
      ScriptKeeps(a, script[..|script| - 1]);
      NestKeeps(RunScript(a, script[..|script| - 1]), script[|script| - 1]);
    }
  }

  /** The loop takes a completion back: its flag is cleared before anything else happens. */
  function TakeBack<I>(a: World<I>, id: I, op: Op, running: bool): World<I>
    requires id in a.heap
  {
    var w := a.heap[id];
    var s := Get(w, op.d);
    var s' := if op.Poll? then s.(active := false) else s.(cancelling := false);
    a.(heap := a.heap[id := Put(w, op.d, s').(inCallback := running)], loop := a.loop - {(id, op)})
  }

  lemma TakeBackKeeps<I>(a: World<I>, id: I, op: Op, running: bool)
    requires id in a.heap && MidBut(a, id)
    ensures MidBut(TakeBack(a, id, op, running), id)
  {
    var r := TakeBack(a, id, op, running);
    forall x, d: Dir | x in r.heap
      ensures Get(r.heap[x], d).active <==> (x, Poll(d)) in r.loop
      ensures Get(r.heap[x], d).cancelling <==> (x, Cancel(d)) in r.loop
    {
      assert Get(a.heap[x], d).active <==> (x, Poll(d)) in a.loop;
      assert Get(a.heap[x], d).cancelling <==> (x, Cancel(d)) in a.loop;
    }
  }

  lemma TakeBackRunning<I>(a: World<I>, id: I, op: Op, running: bool)
    requires id in a.heap && Running(a) <= {id}
    ensures Running(TakeBack(a, id, op, running)) == if running then {id} else {}
  {
    var r := TakeBack(a, id, op, running);
    forall x | x in r.heap ensures r.heap[x].inCallback <==> running && x == id {
      assert a.heap[x].inCallback ==> x in Running(a);
    }
  }

  function EndCallback<I>(a: World<I>, id: I): World<I>
    requires id in a.heap
  {
    a.(heap := a.heap[id := a.heap[id].(inCallback := false)])
  }

  lemma EndCallbackKeeps<I>(a: World<I>, id: I)
    requires id in a.heap && MidBut(a, id) && Running(a) <= {id}
    ensures MidBut(EndCallback(a, id), id) && Running(EndCallback(a, id)) == {}
  {
    var r := EndCallback(a, id);
    forall x, d: Dir | x in r.heap
      ensures Get(r.heap[x], d) == Get(a.heap[x], d)
    {
    }
    forall x | x in r.heap ensures !r.heap[x].inCallback {
      assert a.heap[x].inCallback ==> x in Running(a);
    }
  }

  lemma EndCallbackPairs<I>(a: World<I>, id: I)
    requires id in a.heap && Agree(a) && Paired(a)
    ensures Agree(EndCallback(a, id)) && Paired(EndCallback(a, id))
  {
    var r := EndCallback(a, id);
    forall x, d: Dir | x in r.heap
      ensures Get(r.heap[x], d) == Get(a.heap[x], d)
    {
    }
  }

  lemma UpdateRests<I>(a: World<I>, id: I)
    requires id in a.heap && MidBut(a, id) && Running(a) == {}
    ensures AtRest(UpdateWatch(a, id))
  {
    UpdateSettles(a, id);
    UpdatedIsMid(a, id, UpdateWatch(a, id));
  }

  // -------------------------------------------------------------- the callbacks

  /** The state in which a successful poll calls into c-ares, if it does. */
  function AtProcess<I>(a: World<I>, id: I, d: Dir): World<I>
    requires id in a.heap
  {
    TakeBack(a, id, Poll(d), true)
  }

  predicate Processes<I>(a: World<I>, id: I, d: Dir, ok: bool)
    requires id in a.heap
  {
    ok && Get(a.heap[id], d).want && !a.destroying
  }

  predicate CanReady<I>(a: World<I>, id: I, d: Dir, ok: bool, script: seq<Nested<I>>)
    requires AtRest(a)
  {
    && id in a.heap && (id, Poll(d)) in a.loop
    && (TakeBackKeeps(a, id, Poll(d), true);
        if Processes(a, id, d, ok) then CanScript(AtProcess(a, id, d), script) else script == [])
  }

  /** onReadReady and onWriteReady. `script` is what c-ares calls back from ares_process_fds. */
  function Ready<I>(a: World<I>, id: I, d: Dir, ok: bool, script: seq<Nested<I>>): (r: World<I>)
    requires AtRest(a) && CanReady(a, id, d, ok, script)
    ensures AtRest(r)
  {
    var b := AtProcess(a, id, d);
    TakeBackKeeps(a, id, Poll(d), true);
    TakeBackRunning(a, id, Poll(d), true);
    assert b.heap[id].inCallback;
    var c := if Processes(a, id, d, ok) then (ScriptKeeps(b, script); RunScript(b, script)) else b;
    assert id in Running(c);
    EndCallbackKeeps(c, id);
    UpdateRests(EndCallback(c, id), id);
    UpdateWatch(EndCallback(c, id), id)
  }

  /** A watch survives whatever happens while its own callback is running. */
  lemma ProcessKeeps<I>(a: World<I>, id: I, d: Dir, script: seq<Nested<I>>)
    requires AtRest(a) && id in a.heap
    requires Agree(AtProcess(a, id, d)) && Paired(AtProcess(a, id, d)) && CanScript(AtProcess(a, id, d), script)
    ensures id in RunScript(AtProcess(a, id, d), script).heap
  {
    var b := AtProcess(a, id, d);
    TakeBackKeeps(a, id, Poll(d), true);
    TakeBackRunning(a, id, Poll(d), true);
    assert b.heap[id].inCallback;
    ScriptKeeps(b, script);
    assert id in Running(RunScript(b, script));
  }

  /** onReadCancelled and onWriteCancelled. */
  function Cancelled<I>(a: World<I>, id: I, d: Dir): (r: World<I>)
    requires AtRest(a) && id in a.heap && (id, Cancel(d)) in a.loop
    ensures AtRest(r)
  {
    TakeBackKeeps(a, id, Cancel(d), false);
    TakeBackRunning(a, id, Cancel(d), false);
    UpdateRests(TakeBack(a, id, Cancel(d), false), id);
    UpdateWatch(TakeBack(a, id, Cancel(d), false), id)
  }

  // ----------------------------------------------------------------------- runs

  /** `Call` is any entry from outside the poll callbacks: resolve, cancel, shutdown and the
      timer, with whatever c-ares calls back from there. */
  datatype Event<I> =
    | Polled(id: I, d: Dir, ok: bool, script: seq<Nested<I>>)
    | CancelDone(id: I, d: Dir)
    | Call(script: seq<Nested<I>>)

  predicate Enabled<I>(a: World<I>, e: Event<I>)
    requires AtRest(a)
  {
    match e
    case Polled(id, d, ok, script) => CanReady(a, id, d, ok, script)
    case CancelDone(id, d) => id in a.heap && (id, Cancel(d)) in a.loop
    case Call(script) => CanScript(a, script)
  }

  function Step<I>(a: World<I>, e: Event<I>): (r: World<I>)
    requires AtRest(a) && Enabled(a, e)
    ensures AtRest(r)
  {
    match e
    case Polled(id, d, ok, script) => Ready(a, id, d, ok, script)
    case CancelDone(id, d) => Cancelled(a, id, d)
    case Call(script) => ScriptKeeps(a, script); RunScript(a, script)
  }

  function Start<I>(): (r: World<I>)
    ensures AtRest(r)
  {
    World(map[], map[], {}, false)
  }

  /** Executes events from an empty adapter, as long as each one can happen. Every completion
      submitted and every watch freed on the way meets the conditions of Submit and Free. */
  function Exec<I>(es: seq<Event<I>>): (r: Option<World<I>>)
    ensures r.Some? ==> AtRest(r.value)
  {
    if es == [] then Some(Start())
    else
      var before := Exec(es[..|es| - 1]);
      if before.Some? && Enabled(before.value, es[|es| - 1])
      then Some(Step(before.value, es[|es| - 1]))
      else None
  }

  /** A completion the loop holds belongs to an allocated watch that knows of it; map and
      allocations are in bijection; and while the resolver is in use, wanted interest is armed
      or waits for a cancel that will arm it. */
  ghost predicate Safe<I>(a: World<I>) {
    && (forall c | c in a.loop ::
          c.0 in a.heap && (if c.1.Poll? then Get(a.heap[c.0], c.1.d).active
                            else Get(a.heap[c.0], c.1.d).cancelling))
    && (forall fd | fd in a.watches :: a.watches[fd] in a.heap && a.heap[a.watches[fd]].fd == fd)
    && (forall id | id in a.heap :: a.heap[id].fd in a.watches && a.watches[a.heap[id].fd] == id)
    && (forall id, d: Dir | id in a.heap && Get(a.heap[id], d).want && !a.destroying ::
          (id, Poll(d)) in a.loop || (id, Cancel(d)) in a.loop)
    && (forall id | id in a.heap :: !Idle(a.heap[id]))
  }

  lemma RestIsSafe<I>(a: World<I>)
    requires AtRest(a)
    ensures Safe(a)
  {
    forall c | c in a.loop
      ensures c.0 in a.heap && (if c.1.Poll? then Get(a.heap[c.0], c.1.d).active
                                else Get(a.heap[c.0], c.1.d).cancelling)
    {
      assert c == (c.0, c.1);
      if c.1.Poll? {
        assert c == (c.0, Poll(c.1.d));
      } else {
        assert c == (c.0, Cancel(c.1.d));
      }
    }
    forall id, d: Dir | id in a.heap && Get(a.heap[id], d).want && !a.destroying
      ensures (id, Poll(d)) in a.loop || (id, Cancel(d)) in a.loop
    {
      assert id !in Running(a);
    }
  }

  // ------------------------------------------------------ what c-ares has asked for

  /** The last interest c-ares declared in a socket, told from its callbacks alone. */
  function LastAsked<I>(ns: seq<Nested<I>>, fd: Fd): Option<(bool, bool)> {
    if ns == [] then None
    else
      match ns[|ns| - 1]
      case SocketState(f, readable, writable, _) =>
        if f == fd then Some((readable, writable)) else LastAsked(ns[..|ns| - 1], fd)
      case Destroy => LastAsked(ns[..|ns| - 1], fd)
  }

  /** The last interest c-ares declared in a socket is not empty, and there was memory for a new
      watch then, or the socket was due before. */
  predicate Due<I>(ns: seq<Nested<I>>, fd: Fd) {
    ns != [] &&
    match ns[|ns| - 1]
    case SocketState(f, readable, writable, alloc) =>
      if f == fd then (readable || writable) && (alloc.Fresh? || Due(ns[..|ns| - 1], fd)) else Due(ns[..|ns| - 1], fd)
    case Destroy => Due(ns[..|ns| - 1], fd)
  }

  /** All callbacks of c-ares in a sequence of events. */
  function Asked<I>(es: seq<Event<I>>): seq<Nested<I>> {
    if es == [] then []
    else Asked(es[..|es| - 1]) + ScriptOf(es[|es| - 1])
  }

  /** What a registered watch waits for. */
  function Wanted<I>(a: World<I>, fd: Fd): (bool, bool)
    requires fd in a.watches && a.watches[fd] in a.heap
  {
    (a.heap[a.watches[fd]].input.want, a.heap[a.watches[fd]].output.want)
  }

  /** Until a shutdown, every registered watch waits for what was last asked for its socket, and
      every socket that is due has a watch. */
  ghost predicate Obeys<I>(a: World<I>, ns: seq<Nested<I>>) {
    && Paired(a)
    && (!a.destroying ==>
          && (forall fd | fd in a.watches :: LastAsked(ns, fd) == Some(Wanted(a, fd)))
          && (forall fd | Due(ns, fd) :: fd in a.watches))
  }

  /** `r` has no other watches than `a`, and they wait for the same; those that wait for nothing
      may be gone. */
  ghost predicate SameWants<I>(a: World<I>, r: World<I>) {
    && Paired(a) && Paired(r) && r.destroying == a.destroying
    && (forall fd | fd in r.watches :: fd in a.watches && Wanted(r, fd) == Wanted(a, fd))
    && (forall fd | fd in a.watches && Wanted(a, fd) != (false, false) :: fd in r.watches)
  }

  lemma UpdateSameWants<I>(a: World<I>, id: I)
    requires id in a.heap && Agree(a) && Paired(a)
    ensures SameWants(a, UpdateWatch(a, id))
  {
    var b := UpdateSide(a, id, In);
    var c := UpdateSide(b, id, Out);
    assert SameWants(a, b) && SameWants(b, c);
    if Idle(c.heap[id]) {
      IdleIsUnheld(c, id);
      FreeKeeps(c, id);
    }
  }

  lemma TakeBackSameWants<I>(a: World<I>, id: I, op: Op, running: bool)
    requires id in a.heap && Paired(a) && Paired(TakeBack(a, id, op, running))
    ensures SameWants(a, TakeBack(a, id, op, running))
  {
  }

  lemma EndCallbackSameWants<I>(a: World<I>, id: I)
    requires id in a.heap && Paired(a) && Paired(EndCallback(a, id))
    ensures SameWants(a, EndCallback(a, id))
  {
  }

  /** What is due was asked for. */
  lemma {:induction false} DueIsAsked<I>(ns: seq<Nested<I>>, fd: Fd)
    requires Due(ns, fd)
    ensures LastAsked(ns, fd).Some? && LastAsked(ns, fd).value != (false, false)
  {
    if !(ns[|ns| - 1].SocketState? && ns[|ns| - 1].fd == fd) {
      DueIsAsked(ns[..|ns| - 1], fd);
    }
  }

  lemma SameObeys<I>(a: World<I>, r: World<I>, ns: seq<Nested<I>>)
    requires Obeys(a, ns) && SameWants(a, r)
    ensures Obeys(r, ns)
  {
    forall fd | Due(ns, fd) && !r.destroying ensures fd in r.watches {
      DueIsAsked(ns, fd);
    }
  }

  /** A watch told what to wait for waits for that, and the others for what they did. */
  lemma ApplyWants<I>(a: World<I>, id: I, readable: bool, writable: bool)
    requires id in a.heap && Agree(a) && Paired(a)
    ensures var r := Apply(a, id, readable, writable);
            && Paired(r) && r.destroying == a.destroying
            && (forall fd | fd in r.watches ::
                  fd in a.watches && Wanted(r, fd) == if a.watches[fd] == id then (readable, writable) else Wanted(a, fd))
            && (forall fd | fd in a.watches && a.watches[fd] == id && (readable || writable) :: fd in r.watches)
            && (forall fd | fd in a.watches && a.watches[fd] != id && Wanted(a, fd) != (false, false) :: fd in r.watches)
  {
    WantsKeep(a, id, readable, writable);
    UpdateSameWants(SetWants(a, id, readable, writable), id);
  }

  lemma AskedAfter<I>(ns: seq<Nested<I>>, n: Nested<I>, fd: Fd)
    ensures LastAsked(ns + [n], fd) ==
            if n.SocketState? && n.fd == fd then Some((n.readable, n.writable)) else LastAsked(ns, fd)
    ensures Due(ns + [n], fd) ==
            if n.SocketState? && n.fd == fd then (n.readable || n.writable) && (n.alloc.Fresh? || Due(ns, fd))
            else Due(ns, fd)
  {
    assert (ns + [n])[..|ns + [n]| - 1] == ns;
  }

  /** `r` has the watches of `a` and perhaps one for `fd`, which waits for `want`; none that waits
      for something is gone. */
  ghost predicate Directed<I>(a: World<I>, r: World<I>, fd: Fd, want: (bool, bool), tracked: bool) {
    && Paired(a) && Paired(r)
    && (forall f | f in r.watches ::
          if f == fd then Wanted(r, f) == want else f in a.watches && Wanted(r, f) == Wanted(a, f))
    && (forall f | f in a.watches && f != fd && Wanted(a, f) != (false, false) :: f in r.watches)
    && (tracked && want != (false, false) ==> fd in r.watches)
  }

  lemma KnownDirected<I>(a: World<I>, fd: Fd, readable: bool, writable: bool)
    requires Agree(a) && Paired(a) && fd in a.watches
    ensures Directed(a, Apply(a, a.watches[fd], readable, writable), fd, (readable, writable), true)
  {
    ApplyWants(a, a.watches[fd], readable, writable);
  }

  lemma InsertedDirected<I>(a: World<I>, id: I, fd: Fd, readable: bool, writable: bool)
    requires Agree(a) && Paired(a) && fd !in a.watches && id !in a.heap
    requires Agree(Insert(a, id, fd)) && Paired(Insert(a, id, fd))
    ensures Directed(a, Apply(Insert(a, id, fd), id, readable, writable), fd, (readable, writable), true)
  {
    ApplyWants(Insert(a, id, fd), id, readable, writable);
  }

  lemma NestDirected<I>(a: World<I>, n: Nested<I>)
    requires Agree(a) && Paired(a) && CanNest(a, n) && n.SocketState? && !a.destroying
    ensures Directed(a, Nest(a, n), n.fd, (n.readable, n.writable), n.alloc.Fresh? || n.fd in a.watches)
  {
    if n.fd in a.watches {
      KnownDirected(a, n.fd, n.readable, n.writable);
    } else if n.alloc.Fresh? {
      InsertKeeps(a, n.alloc.id, n.fd);
      InsertedDirected(a, n.alloc.id, n.fd, n.readable, n.writable);
    }
  }

  lemma NestDestroys<I>(a: World<I>, n: Nested<I>)
    requires Agree(a) && Paired(a) && CanNest(a, n)
    ensures Nest(a, n).destroying == (a.destroying || n.Destroy?)
  {
    if n.SocketState? && n.fd in a.watches {
      ApplyWants(a, a.watches[n.fd], !a.destroying && n.readable, !a.destroying && n.writable);
    } else if n.SocketState? && !a.destroying && n.alloc.Fresh? {
      InsertKeeps(a, n.alloc.id, n.fd);
      ApplyWants(Insert(a, n.alloc.id, n.fd), n.alloc.id, n.readable, n.writable);
    }
  }

  lemma DirectedObeys<I>(a: World<I>, r: World<I>, n: Nested<I>, ns: seq<Nested<I>>)
    requires Obeys(a, ns) && n.SocketState? && !a.destroying
    requires Directed(a, r, n.fd, (n.readable, n.writable), n.alloc.Fresh? || n.fd in a.watches)
    ensures Obeys(r, ns + [n])
  {
    forall fd | Due(ns + [n], fd) ensures fd in r.watches {
      AskedAfter(ns, n, fd);
      if fd != n.fd {
        DueIsAsked(ns, fd);
      }
    }
    forall fd | fd in r.watches ensures LastAsked(ns + [n], fd) == Some(Wanted(r, fd)) {
      AskedAfter(ns, n, fd);
    }
  }

  lemma NestObeys<I>(a: World<I>, n: Nested<I>, ns: seq<Nested<I>>)
    requires Agree(a) && CanNest(a, n) && Obeys(a, ns)
    ensures Obeys(Nest(a, n), ns + [n])
  {
    NestPairs(a, n);
    NestDestroys(a, n);
    if n.SocketState? && !a.destroying {
      NestDirected(a, n);
      DirectedObeys(a, Nest(a, n), n, ns);
    } else {
      assert Nest(a, n).destroying;
    }
  }

  lemma {:induction false} ScriptObeys<I>(a: World<I>, script: seq<Nested<I>>, ns: seq<Nested<I>>)
    requires Agree(a) && Paired(a) && CanScript(a, script) && Obeys(a, ns)
    ensures Obeys(RunScript(a, script), ns + script)
    decreases |script|
  {
    if script == [] {
      assert ns + script == ns;
    } else {
      var init, last := script[..|script| - 1], script[|script| - 1];
      ScriptObeys(a, init, ns);
      NestObeys(RunScript(a, init), last, ns + init);
      assert ns + script == ns + init + [last];
    }
  }

  lemma ReadyObeys<I>(a: World<I>, id: I, d: Dir, ok: bool, script: seq<Nested<I>>, ns: seq<Nested<I>>)
    requires AtRest(a) && CanReady(a, id, d, ok, script) && Obeys(a, ns)
    ensures Obeys(Ready(a, id, d, ok, script), ns + script)
  {
    var b := AtProcess(a, id, d);
    TakeBackKeeps(a, id, Poll(d), true);
    TakeBackRunning(a, id, Poll(d), true);
    TakeBackSameWants(a, id, Poll(d), true);
    SameObeys(a, b, ns);
    var c := b;
    if Processes(a, id, d, ok) {
      ScriptKeeps(b, script);
      ScriptObeys(b, script, ns);
      c := RunScript(b, script);
      assert id in Running(b);
    } else {
      assert ns + script == ns;
    }
    assert id in c.heap;
    EndCallbackPairs(c, id);
    EndCallbackSameWants(c, id);
    SameObeys(c, EndCallback(c, id), ns + script);
    UpdateSameWants(EndCallback(c, id), id);
    SameObeys(EndCallback(c, id), UpdateWatch(EndCallback(c, id), id), ns + script);
  }

  lemma CancelledObeys<I>(a: World<I>, id: I, d: Dir, ns: seq<Nested<I>>)
    requires AtRest(a) && id in a.heap && (id, Cancel(d)) in a.loop && Obeys(a, ns)
    ensures Obeys(Cancelled(a, id, d), ns)
  {
    var b := TakeBack(a, id, Cancel(d), false);
    TakeBackKeeps(a, id, Cancel(d), false);
    TakeBackSameWants(a, id, Cancel(d), false);
    SameObeys(a, b, ns);
    UpdateSameWants(b, id);
    SameObeys(b, UpdateWatch(b, id), ns);
  }

  // -------------------------------------------------------- shutdown and readiness

  lemma {:induction false} ScriptDestroys<I>(a: World<I>, script: seq<Nested<I>>)
    requires Agree(a) && Paired(a) && CanScript(a, script)
    ensures RunScript(a, script).destroying <==> a.destroying || Destroy in script
    decreases |script|
  {
    if script != [] {
      var init, last := script[..|script| - 1], script[|script| - 1];
      ScriptDestroys(a, init);
      NestDestroys(RunScript(a, init), last);
      assert script == init + [last];
    }
  }

  lemma ReadyDestroys<I>(a: World<I>, id: I, d: Dir, ok: bool, script: seq<Nested<I>>)
    requires AtRest(a) && CanReady(a, id, d, ok, script)
    ensures Ready(a, id, d, ok, script).destroying <==> a.destroying || Destroy in script
  {
    var b := AtProcess(a, id, d);
    TakeBackKeeps(a, id, Poll(d), true);
    TakeBackRunning(a, id, Poll(d), true);
    var c := b;
    if Processes(a, id, d, ok) {
      ScriptKeeps(b, script);
      ScriptDestroys(b, script);
      c := RunScript(b, script);
      assert id in Running(b);
    }
    EndCallbackPairs(c, id);
    UpdateSameWants(EndCallback(c, id), id);
  }

  lemma StepDestroys<I>(a: World<I>, e: Event<I>)
    requires AtRest(a) && Enabled(a, e)
    ensures Step(a, e).destroying <==> a.destroying || Destroy in ScriptOf(e)
  {
    match e
    case Polled(id, d, ok, script) => ReadyDestroys(a, id, d, ok, script);
    case CancelDone(id, d) =>
      TakeBackKeeps(a, id, Cancel(d), false);
      UpdateSameWants(TakeBack(a, id, Cancel(d), false), id);
    case Call(script) => ScriptDestroys(a, script);
  }

  lemma {:induction false} ExecDestroys<I>(es: seq<Event<I>>)
    ensures Exec(es).Some? ==> (Exec(es).value.destroying <==> Destroy in Asked(es))
  {
    if es != [] && Exec(es).Some? {
      ExecDestroys(es[..|es| - 1]);
      StepDestroys(Exec(es[..|es| - 1]).value, es[|es| - 1]);
    }
  }

  /** A poll that succeeds is passed on to c-ares exactly if no shutdown has begun and c-ares's
      last word on the socket asks for that direction. */
  lemma ReadinessPassedOn<I>(es: seq<Event<I>>, id: I, d: Dir, ok: bool)
    requires Exec(es).Some? && id in Exec(es).value.heap
    ensures Processes(Exec(es).value, id, d, ok) <==>
            && ok && Destroy !in Asked(es)
            && var asked := LastAsked(Asked(es), Exec(es).value.heap[id].fd);
               asked.Some? && if d == In then asked.value.0 else asked.value.1
  {
    ExecObeys(es);
    ExecDestroys(es);
  }

  function ScriptOf<I>(e: Event<I>): seq<Nested<I>> { if e.CancelDone? then [] else e.script }

  lemma StepObeys<I>(a: World<I>, e: Event<I>, ns: seq<Nested<I>>)
    requires AtRest(a) && Enabled(a, e) && Obeys(a, ns)
    ensures Obeys(Step(a, e), ns + ScriptOf(e))
  {
    match e
    case Polled(id, d, ok, script) => ReadyObeys(a, id, d, ok, script, ns);
    case CancelDone(id, d) =>
      CancelledObeys(a, id, d, ns);
      assert ns + [] == ns;
    case Call(script) => ScriptObeys(a, script, ns);
  }

  lemma {:induction false} ExecObeys<I>(es: seq<Event<I>>)
    ensures Exec(es).Some? ==> Obeys(Exec(es).value, Asked(es))
  {
    if es != [] && Exec(es).Some? {
      ExecObeys(es[..|es| - 1]);
      StepObeys(Exec(es[..|es| - 1]).value, es[|es| - 1], Asked(es[..|es| - 1]));
    }
  }

  /** Until a shutdown, every socket c-ares has an interest in has a watch if there was memory for
      it, what c-ares last asked for a socket is what its watch waits for, and the loop holds the
      poll of each direction asked for, or the cancel that will lead to it. */
  ghost predicate Attended<I>(a: World<I>, ns: seq<Nested<I>>) {
    Destroy !in ns ==>
      && (forall fd | Due(ns, fd) :: fd in a.watches)
      && (forall fd | fd in a.watches ::
            && a.watches[fd] in a.heap && LastAsked(ns, fd) == Some(Wanted(a, fd))
            && (LastAsked(ns, fd).value.0 ==> (a.watches[fd], Poll(In)) in a.loop || (a.watches[fd], Cancel(In)) in a.loop)
            && (LastAsked(ns, fd).value.1 ==> (a.watches[fd], Poll(Out)) in a.loop || (a.watches[fd], Cancel(Out)) in a.loop))
  }

  /** In every run of socket changes, poll completions and cancel completions. */
  lemma WatchesSafe<I>(es: seq<Event<I>>)
    ensures Exec(es).Some? ==> Safe(Exec(es).value) && Attended(Exec(es).value, Asked(es))
  {
    if Exec(es).Some? {
      var a := Exec(es).value;
      RestIsSafe(a);
      ExecObeys(es);
      ExecDestroys(es);
      forall fd | fd in a.watches && !a.destroying
        ensures Wanted(a, fd).0 ==> (a.watches[fd], Poll(In)) in a.loop || (a.watches[fd], Cancel(In)) in a.loop
        ensures Wanted(a, fd).1 ==> (a.watches[fd], Poll(Out)) in a.loop || (a.watches[fd], Cancel(Out)) in a.loop
      {
        assert Get(a.heap[a.watches[fd]], In).want == Wanted(a, fd).0;
        assert Get(a.heap[a.watches[fd]], Out).want == Wanted(a, fd).1;
      }
    }
  }
}
