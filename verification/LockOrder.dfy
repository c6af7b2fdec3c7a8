/** Lock order: with any number of threads and calls, no reachable state has a cycle of
    threads that wait for each other's locks, and no application callback runs under a lock. */
module LockOrder {
  import opened Statuses

  type Tid = nat

  /** The kinds of lock, those of the transport included: the callback mutex, under which the
      client transport runs callbacks and which releasing a stream takes; the stream and the
      channel lock, which stream commands take; and the server lock, which commands on a
      retained call, retaining and releasing it take. */
  datatype Kind =
    | CallbackMutex | ContextMutex | CommandMutex | CallMutex | StreamLock | ChannelLock
    | RegistryMutex | CallStateMutex | RequestMutex | TypedCallMutex | ServerLock

  /** A lock of one kind, belonging to one call (or context, or registration). */
  datatype Lock = Lock(kind: Kind, owner: nat)

  function Rank(k: Kind): nat {
    match k
    case CallbackMutex => 0
    case CommandMutex => 1
    case CallStateMutex => 1
    case RequestMutex => 1
    case ContextMutex => 2
    case RegistryMutex => 2
    case CallMutex => 2
    case TypedCallMutex => 2
    case StreamLock => 3
    case ServerLock => 3
    case ChannelLock => 4
  }

  // ----------------------------------------------------- the operations of the source

  /** One stretch of an operation: a lock and what is taken under it, as chains of nested locks
      one after the other; or a call of application code. */
  datatype Act = Under(l: Lock, chains: seq<seq<Lock>>) | CallOut

  function Only(kind: Kind, owner: nat): Act { Under(Lock(kind, owner), []) }

  /** A command on a client stream. */
  function Stream(c: nat): seq<Lock> { [Lock(StreamLock, c), Lock(ChannelLock, c)] }

  /** A command on a retained server call. */
  function Command(c: nat): Act { Under(Lock(TypedCallMutex, c), [[Lock(ServerLock, c)]]) }

  function Guarded(kind: Kind, c: nat): Act {
    Under(Lock(kind, c), [[Lock(TypedCallMutex, c), Lock(ServerLock, c)]])
  }

  /** Impl::Find: retain the call, look it up, release the handle. */
  function Find(c: nat, x: nat): seq<Act> { [Only(ServerLock, c), Only(RegistryMutex, x), Only(ServerLock, c)] }

  /** The operations of the client call, the client context, the typed call, the request stream
      and the registry, each with its locks in source order. A wait on a condition variable
      ends one section and starts another. `c` is a call, `x` a context or a registration. */
  datatype Operation =
    // client call and context
    | OnHeaders(c: nat, x: nat)
    | OnClientEvent(c: nat)                 // on_message, on_writable, on_terminal
    | Open(c: nat, x: nat)
    | TryCancel(c: nat, x: nat)
    | Cancel(c: nat)
    | RunCommand(c: nat)                    // one round, and the failure at its end
    | Read(c: nat)
    | Finish(c: nat, x: nat)
    // typed call
    | TypedUse(c: nat)                      // a command, or a query of its flags
    | SetObserver(c: nat)                   // SetOnWritable, SetOnCancel, SetOnTerminal
    | WaitForWritable(c: nat)
    // request stream
    | ReadRequest(c: nat)
    // registration
    | Register(x: nat)
    | Disable(x: nat)
    // callbacks of the server transport
    | OnStart(c: nat, x: nat)
    | OnStreamStart(c: nat, x: nat, handler: bool)
    | OnMessage(c: nat, x: nat, refused: bool)
    | OnStreamMessage(c: nat, x: nat, refused: bool)
    | OnRemoteEnd(c: nat, x: nat, handler: bool)
    | OnMissingRequest(c: nat, x: nat)
    | OnStreamEnd(c: nat, x: nat)
    | OnWritable(c: nat, x: nat)
    | OnCancel(c: nat, x: nat)
    | OnTerminal(c: nat, x: nat)

  function Acts(op: Operation): seq<Act> {
    match op
    case OnHeaders(c, x) => [Under(Lock(CallbackMutex, c), [[Lock(CallMutex, c)], [Lock(ContextMutex, x)]])]
    case OnClientEvent(c) => [Under(Lock(CallbackMutex, c), [[Lock(CallMutex, c)]])]
    case Open(c, x) => [Only(ContextMutex, x), Under(Lock(CommandMutex, c), [Stream(c), Stream(c)]), Only(CallMutex, c)]
    case TryCancel(c, x) =>
      [Only(ContextMutex, x), Under(Lock(CommandMutex, c), [[Lock(CallMutex, c)], Stream(c)])]
    case Cancel(c) => [Under(Lock(CommandMutex, c), [[Lock(CallMutex, c)], Stream(c)])]
    case RunCommand(c) =>
      [Only(CallMutex, c), Under(Lock(CommandMutex, c), [Stream(c)]), Only(CallMutex, c), Only(CallMutex, c)]
    case Read(c) => [Only(CallMutex, c), Under(Lock(CommandMutex, c), [Stream(c), [Lock(CallMutex, c)]])]
    case Finish(c, x) =>
      [Only(CallMutex, c), Only(ContextMutex, x), Only(CommandMutex, c), Under(Lock(CallbackMutex, c), [Stream(c)])]
    case TypedUse(c) => [Command(c)]
    case SetObserver(c) => [Only(TypedCallMutex, c), CallOut]
    case WaitForWritable(c) => [Only(TypedCallMutex, c), Only(TypedCallMutex, c)]
    case ReadRequest(c) => [Only(RequestMutex, c), Only(RequestMutex, c), Command(c), Command(c)]
    case Register(x) => [Only(RegistryMutex, x), Only(ServerLock, x), Only(RegistryMutex, x)]
    case Disable(x) => [Only(RegistryMutex, x)]
    case OnStart(c, x) => [Only(ServerLock, c), Only(RegistryMutex, x)]
    case OnStreamStart(c, x, handler) =>
      [Only(ServerLock, c), Only(RegistryMutex, x), Only(RegistryMutex, x), if handler then CallOut else Command(c)]
    case OnMessage(c, x, refused) =>
      Find(c, x) + [if refused then Guarded(CallStateMutex, c) else Only(CallStateMutex, c)]
    case OnStreamMessage(c, x, refused) =>
      Find(c, x) + [if refused then Guarded(RequestMutex, c) else Only(RequestMutex, c)]
    case OnRemoteEnd(c, x, handler) =>
      Find(c, x) + [Only(CallStateMutex, c), Only(RegistryMutex, x), if handler then CallOut else Command(c)]
    case OnMissingRequest(c, x) => Find(c, x) + [Guarded(CallStateMutex, c)]
    case OnStreamEnd(c, x) => Find(c, x) + [Only(RequestMutex, c)]
    case OnWritable(c, x) => Find(c, x) + [Only(TypedCallMutex, c), CallOut]
    case OnCancel(c, x) => Find(c, x) + [Only(RequestMutex, c), Only(TypedCallMutex, c), CallOut]
    case OnTerminal(c, x) => [Only(RegistryMutex, x), Only(RequestMutex, c), Command(c), CallOut]
  }

  // -------------------------------------------------------------- locking, step by step

  datatype Op = Acquire(l: Lock) | Release(l: Lock) | Callback

  function Hold(l: Lock, body: seq<Op>): seq<Op> { [Acquire(l)] + body + [Release(l)] }

  function Nested(chain: seq<Lock>): seq<Op> {
    if chain == [] then [] else Hold(chain[0], Nested(chain[1..]))
  }

  function Chained(chains: seq<seq<Lock>>): seq<Op> {
    if chains == [] then [] else Nested(chains[0]) + Chained(chains[1..])
  }

  function ActOps(a: Act): seq<Op> {
    match a
    case Under(l, chains) => Hold(l, Chained(chains))
    case CallOut => [Callback]
  }

  function Script(acts: seq<Act>): seq<Op> {
    if acts == [] then [] else ActOps(acts[0]) + Script(acts[1..])
  }

  // -------------------------------------------------------------------- discipline

  predicate MayAcquire(held: set<Lock>, l: Lock) {
    forall h | h in held :: Rank(h.kind) < Rank(l.kind)
  }

  /** The locks held after `ops`, unless one of them breaks the discipline: locks are taken in
      rising rank, and application code is called with none. */
  function After(held: set<Lock>, ops: seq<Op>): Option<set<Lock>>
    decreases |ops|
  {
    if ops == [] then Some(held)
    else match ops[0]
      case Acquire(l) => if MayAcquire(held, l) then After(held + {l}, ops[1..]) else None
      case Release(l) => if l in held then After(held - {l}, ops[1..]) else None
      case Callback => if held == {} then After(held, ops[1..]) else None
  }

  /** `ops` keeps the discipline and gives back what it took. */
  predicate Balanced(held: set<Lock>, ops: seq<Op>) { After(held, ops) == Some(held) }

  lemma {:induction false} AfterConcat(held: set<Lock>, a: seq<Op>, b: seq<Op>)
    requires After(held, a).Some?
    ensures After(held, a + b) == After(After(held, a).value, b)
    decreases |a|
  {
    if a == [] {
      assert a + b == b;
    } else {
      assert (a + b)[1..] == a[1..] + b;
      match a[0]
      case Acquire(l) => AfterConcat(held + {l}, a[1..], b);
      case Release(l) => AfterConcat(held - {l}, a[1..], b);
      case Callback => AfterConcat(held, a[1..], b);
    }
  }

  lemma BalancedHold(held: set<Lock>, l: Lock, body: seq<Op>)
    requires MayAcquire(held, l) && Balanced(held + {l}, body)
    ensures Balanced(held, Hold(l, body))
  {
    assert l !in held;
    AfterConcat(held + {l}, body, [Release(l)]);
    assert held + {l} - {l} == held;
    assert Hold(l, body)[1..] == body + [Release(l)];
    assert [Release(l)][1..] == [];
  }

  /** Ranks rise along the chain, from above `r`. */
  predicate Rising(r: int, chain: seq<Lock>)
    decreases |chain|
  {
    chain != [] ==> r < Rank(chain[0].kind) && Rising(Rank(chain[0].kind), chain[1..])
  }

  predicate Orderly(a: Act) {
    a.Under? ==> forall i | 0 <= i < |a.chains| :: Rising(Rank(a.l.kind), a.chains[i])
  }

  lemma {:induction false} NestedBalanced(held: set<Lock>, r: int, chain: seq<Lock>)
    requires (forall h | h in held :: Rank(h.kind) <= r) && Rising(r, chain)
    ensures Balanced(held, Nested(chain))
    decreases |chain|
  {
    if chain != [] {
      NestedBalanced(held + {chain[0]}, Rank(chain[0].kind), chain[1..]);
      BalancedHold(held, chain[0], Nested(chain[1..]));
    }
  }

  lemma {:induction false} ChainedBalanced(held: set<Lock>, r: int, chains: seq<seq<Lock>>)
    requires forall h | h in held :: Rank(h.kind) <= r
    requires forall i | 0 <= i < |chains| :: Rising(r, chains[i])
    ensures Balanced(held, Chained(chains))
    decreases |chains|
  {
    if chains != [] {
      NestedBalanced(held, r, chains[0]);
      ChainedBalanced(held, r, chains[1..]);
      AfterConcat(held, Nested(chains[0]), Chained(chains[1..]));
    }
  }

  lemma ActBalanced(a: Act)
    requires Orderly(a)
    ensures Balanced({}, ActOps(a))
  {
    match a
    case Under(l, chains) =>
      ChainedBalanced({} + {l}, Rank(l.kind), chains);
      BalancedHold({}, l, Chained(chains));
    case CallOut => assert [Callback][1..] == [];
  }

  lemma {:induction false} ScriptBalanced(acts: seq<Act>)
    requires forall i | 0 <= i < |acts| :: Orderly(acts[i])
    ensures Balanced({}, Script(acts))
    decreases |acts|
  {
    if acts != [] {
      ActBalanced(acts[0]);
      ScriptBalanced(acts[1..]);
      AfterConcat({}, ActOps(acts[0]), Script(acts[1..]));
    }
  }

  lemma OneRises(r: int, l: Lock)
    requires r < Rank(l.kind)
    ensures Rising(r, [l])
  {
    assert [l][1..] == [];
  }

  lemma TwoRise(r: int, l: Lock, m: Lock)
    requires r < Rank(l.kind) < Rank(m.kind)
    ensures Rising(r, [l, m])
  {
    assert [l, m][1..] == [m];
    OneRises(Rank(l.kind), m);
  }

  /** An act that takes nothing under its lock, one chain, or two. */
  lemma UnderOrderly(l: Lock, a: seq<Lock>, b: seq<Lock>)
    requires Rising(Rank(l.kind), a) && Rising(Rank(l.kind), b)
    ensures Orderly(Under(l, [])) && Orderly(Under(l, [a])) && Orderly(Under(l, [a, b]))
  {
  }

  lemma ClientOrderly(c: nat, x: nat)
    ensures Orderly(Under(Lock(CallbackMutex, c), [[Lock(CallMutex, c)], [Lock(ContextMutex, x)]]))
    ensures Orderly(Under(Lock(CallbackMutex, c), [[Lock(CallMutex, c)]]))
    ensures Orderly(Under(Lock(CallbackMutex, c), [Stream(c)]))
    ensures Orderly(Under(Lock(CommandMutex, c), [Stream(c)]))
    ensures Orderly(Under(Lock(CommandMutex, c), [Stream(c), Stream(c)]))
    ensures Orderly(Under(Lock(CommandMutex, c), [[Lock(CallMutex, c)], Stream(c)]))
    ensures Orderly(Under(Lock(CommandMutex, c), [Stream(c), [Lock(CallMutex, c)]]))
  {
    OneRises(0, Lock(CallMutex, c));
    OneRises(1, Lock(CallMutex, c));
    OneRises(0, Lock(ContextMutex, x));
    TwoRise(0, Lock(StreamLock, c), Lock(ChannelLock, c));
    TwoRise(1, Lock(StreamLock, c), Lock(ChannelLock, c));
    UnderOrderly(Lock(CallbackMutex, c), [Lock(CallMutex, c)], [Lock(ContextMutex, x)]);
    UnderOrderly(Lock(CallbackMutex, c), Stream(c), Stream(c));
    UnderOrderly(Lock(CommandMutex, c), Stream(c), Stream(c));
    UnderOrderly(Lock(CommandMutex, c), [Lock(CallMutex, c)], Stream(c));
    UnderOrderly(Lock(CommandMutex, c), Stream(c), [Lock(CallMutex, c)]);
  }

  lemma ServerOrderly(c: nat)
    ensures Orderly(Command(c)) && Orderly(Guarded(CallStateMutex, c)) && Orderly(Guarded(RequestMutex, c))
  {
    OneRises(2, Lock(ServerLock, c));
    TwoRise(1, Lock(TypedCallMutex, c), Lock(ServerLock, c));
  }

  /** Every operation takes its locks in rising rank. */
  lemma OperationsOrderly(op: Operation)
    ensures forall i | 0 <= i < |Acts(op)| :: Orderly(Acts(op)[i])
  {
    match op
    case OnHeaders(c, x) => ClientOrderly(c, x);
    case OnClientEvent(c) => ClientOrderly(c, c);
    case Open(c, x) => ClientOrderly(c, x);
    case TryCancel(c, x) => ClientOrderly(c, x);
    case Cancel(c) => ClientOrderly(c, c);
    case RunCommand(c) => ClientOrderly(c, c);
    case Read(c) => ClientOrderly(c, c);
    case Finish(c, x) => ClientOrderly(c, x);
    case Register(_) =>
    case Disable(_) =>
    case _ => ServerOrderly(op.c);
  }

  /** So it keeps the discipline: no lock under one of equal or higher rank, no application code
      under any, everything released. */
  lemma OperationsBalanced(op: Operation)
    ensures Balanced({}, Script(Acts(op)))
  {
    OperationsOrderly(op);
    ScriptBalanced(Acts(op));
  }

  // -------------------------------------------------------------------------- runs

  /** A thread: what it holds and what is left of its current operation. */
  datatype Thread = Thread(held: set<Lock>, rest: seq<Op>)

  type State = map<Tid, Thread>

  predicate Held(s: State, l: Lock) {
    exists t | t in s :: l in s[t].held
  }

  /** `Reenter`: application code that is being called runs an operation itself. */
  datatype Event = Begin(t: Tid, op: Operation) | Reenter(t: Tid, op: Operation) | Advance(t: Tid)

  predicate Enabled(s: State, e: Event) {
    && e.t in s
    && match e
       case Begin(t, _) => s[t].rest == []
       case Reenter(t, _) => s[t].rest != [] && s[t].rest[0].Callback?
       case Advance(t) => s[t].rest != [] && (s[t].rest[0].Acquire? ==> !Held(s, s[t].rest[0].l))
  }

  function Step(s: State, e: Event): State
    requires Enabled(s, e)
  {
    match e
    case Begin(t, op) => s[t := s[t].(rest := Script(Acts(op)))]
    case Reenter(t, op) => s[t := s[t].(rest := Script(Acts(op)) + s[t].rest)]
    case Advance(t) =>
      var rest := s[t].rest[1..];
      match s[t].rest[0]
      case Acquire(l) => s[t := Thread(s[t].held + {l}, rest)]
      case Release(l) => s[t := Thread(s[t].held - {l}, rest)]
      case Callback => s[t := s[t].(rest := rest)]
  }

  predicate Init(s: State) {
    forall t | t in s :: s[t] == Thread({}, [])
  }

  ghost predicate IsRun(ss: seq<State>, es: seq<Event>) {
    && |ss| == |es| + 1
    && Init(ss[0])
    && forall i | 0 <= i < |es| :: Enabled(ss[i], es[i]) && ss[i + 1] == Step(ss[i], es[i])
  }

  predicate Waits(s: State, t: Tid, l: Lock) {
    t in s && s[t].rest != [] && s[t].rest[0] == Acquire(l)
  }

  /** Thread `t` waits for a lock that thread `u` holds. */
  predicate WaitsOn(s: State, t: Tid, l: Lock, u: Tid) {
    Waits(s, t, l) && u in s && l in s[u].held
  }

  /** Each thread waits for a lock of the next one, the last for some lock. */
  ghost predicate Chain(s: State, ts: seq<Tid>, ls: seq<Lock>) {
    && |ts| == |ls| > 0
    && (forall i | 0 <= i < |ts| - 1 :: WaitsOn(s, ts[i], ls[i], ts[i + 1]))
    && Waits(s, ts[|ts| - 1], ls[|ls| - 1])
  }

  ghost predicate Cycle(s: State, ts: seq<Tid>, ls: seq<Lock>) {
    Chain(s, ts, ls) && WaitsOn(s, ts[|ts| - 1], ls[|ls| - 1], ts[0])
  }

  ghost predicate Disciplined(s: State) {
    forall t | t in s :: After(s[t].held, s[t].rest) == Some({})
  }

  lemma StepKeeps(s: State, e: Event)
    requires Disciplined(s) && Enabled(s, e)
    ensures Disciplined(Step(s, e))
  {
    if e.Begin? {
      assert After(s[e.t].held, []) == Some(s[e.t].held);
      OperationsBalanced(e.op);
    } else if e.Reenter? {
      OperationsBalanced(e.op);
      AfterConcat({}, Script(Acts(e.op)), s[e.t].rest);
    }
  }

  lemma {:induction false} RunKeeps(ss: seq<State>, es: seq<Event>, i: nat)
    requires IsRun(ss, es) && i < |ss|
    ensures Disciplined(ss[i])
  {
    if i > 0 {
      RunKeeps(ss, es, i - 1);
      StepKeeps(ss[i - 1], es[i - 1]);
    }
  }

  lemma WaitingRaises(s: State, t: Tid, l: Lock, u: Tid, m: Lock)
    requires Disciplined(s) && WaitsOn(s, t, l, u) && Waits(s, u, m)
    ensures Rank(l.kind) < Rank(m.kind)
  {
    assert After(s[u].held, s[u].rest).Some?;
  }

  /** Along a chain of waiting threads the rank of the wanted lock rises. */
  lemma {:induction false} RanksRise(s: State, ts: seq<Tid>, ls: seq<Lock>, i: nat)
    requires Disciplined(s) && Chain(s, ts, ls) && i < |ls|
    ensures Rank(ls[i].kind) >= Rank(ls[0].kind) + i
  {
    if i > 0 {
      RanksRise(s, ts, ls, i - 1);
      assert WaitsOn(s, ts[i - 1], ls[i - 1], ts[i]);
      assert i < |ts| - 1 ==> WaitsOn(s, ts[i], ls[i], ts[i + 1]);
      WaitingRaises(s, ts[i - 1], ls[i - 1], ts[i], ls[i]);
    }
  }

  /** No deadlock among the locks, in any state of any run. */
  lemma NoCycle(ss: seq<State>, es: seq<Event>, i: nat, ts: seq<Tid>, ls: seq<Lock>)
    requires IsRun(ss, es) && i < |ss|
    ensures !Cycle(ss[i], ts, ls)
  {
    if Cycle(ss[i], ts, ls) {
      RunKeeps(ss, es, i);
      RanksRise(ss[i], ts, ls, |ts| - 1);
      assert |ts| > 1 ==> WaitsOn(ss[i], ts[0], ls[0], ts[1]);
      WaitingRaises(ss[i], ts[|ts| - 1], ls[|ls| - 1], ts[0], ls[0]);
    }
  }

  /** Observers and handlers are called, in the middle of the operations that call them, with
      none of these locks held, however deep application code re-enters; and no thread asks for
      a lock it holds. */
  lemma CallbacksUnlocked(ss: seq<State>, es: seq<Event>, i: nat, t: Tid)
    requires IsRun(ss, es) && i < |ss| && t in ss[i] && ss[i][t].rest != []
    ensures ss[i][t].rest[0].Callback? ==> ss[i][t].held == {}
    ensures ss[i][t].rest[0].Acquire? ==> ss[i][t].rest[0].l !in ss[i][t].held
  {
    RunKeeps(ss, es, i);
    assert After(ss[i][t].held, ss[i][t].rest).Some?;
  }
}
