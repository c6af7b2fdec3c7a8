/** The watches that tie c-ares sockets to the event loop (src/cares_adapter.zig). A watch is
    an allocation with an identity of type `I`; the loop holds the completions that were
    submitted and not called back yet. */
module CaresSpec {
  type Fd = int

  datatype Dir = In | Out

  /** The four completions embedded in a watch. */
  datatype Op = Poll(d: Dir) | Cancel(d: Dir)

  /** One direction of a watch: want_read, read_active, read_cancel_active or their write twins. */
  datatype Side = Side(want: bool, active: bool, cancelling: bool)

  datatype Watch = Watch(fd: Fd, input: Side, output: Side, inCallback: bool)

  datatype World<I> = World(
    watches: map<Fd, I>, heap: map<I, Watch>, loop: set<(I, Op)>, destroying: bool)

  /** The two allocations of a new watch: a hash map slot and the watch itself. */
  datatype Alloc<I> = MapFull | NoMemory | Fresh(id: I)

  /** What c-ares may call back while the adapter is inside one of its functions. `Destroy` is
      the start of a shutdown requested by the resolve callback. */
  datatype Nested<I> =
    | SocketState(fd: Fd, readable: bool, writable: bool, alloc: Alloc<I>)
    | Destroy

  function Get(w: Watch, d: Dir): Side {
    if d == In then w.input else w.output
  }

  function Put(w: Watch, d: Dir, s: Side): Watch {
    if d == In then w.(input := s) else w.(output := s)
  }

  predicate Idle(w: Watch) {
    && !w.inCallback
    && !w.input.want && !w.input.active && !w.input.cancelling
    && !w.output.want && !w.output.active && !w.output.cancelling
  }

  // --------------------------------------------------------------- invariants

  /** The flags of every live watch say what the loop holds, and the loop holds nothing else:
      in particular no completion of a watch that is not allocated. */
  ghost predicate Agree<I>(a: World<I>) {
    && (forall id, d: Dir | id in a.heap :: Get(a.heap[id], d).active <==> (id, Poll(d)) in a.loop)
    && (forall id, d: Dir | id in a.heap :: Get(a.heap[id], d).cancelling <==> (id, Cancel(d)) in a.loop)
    && (forall c | c in a.loop :: c.0 in a.heap)
  }

  /** The map and the allocated watches are in bijection through `fd`. */
  ghost predicate Paired<I>(a: World<I>) {
    && (forall fd | fd in a.watches :: a.watches[fd] in a.heap && a.heap[a.watches[fd]].fd == fd)
    && (forall id | id in a.heap :: a.heap[id].fd in a.watches && a.watches[a.heap[id].fd] == id)
  }

  /** Wanted interest is armed or waits on a cancel; unwanted interest is being cancelled. */
  predicate Served(s: Side, destroying: bool) {
    && (s.want && !destroying ==> s.active || s.cancelling)
    && (!s.want && s.active ==> s.cancelling)
  }

  predicate Settled(w: Watch, destroying: bool) {
    !Idle(w) && Served(w.input, destroying) && Served(w.output, destroying)
  }

  /** The watches whose poll callback is running. */
  ghost function Running<I>(a: World<I>): set<I> {
    set id | id in a.heap && a.heap[id].inCallback
  }

  /** What holds whenever no function of the adapter is in the middle of its work, except for
      watches whose callback is running. */
  ghost predicate Mid<I>(a: World<I>) {
    && Agree(a) && Paired(a)
    && forall id | id in a.heap :: a.heap[id].inCallback || Settled(a.heap[id], a.destroying)
  }

  /** What holds when control is with the loop. */
  ghost predicate AtRest<I>(a: World<I>) {
    Mid(a) && Running(a) == {}
  }

  // --------------------------------------------------------------- operations

  /** Hands a completion to the loop. It must not be held already, nor a cancel naming it; a
      cancel must name a completion the loop holds. */
  function Submit<I>(a: World<I>, id: I, op: Op): World<I>
    requires (id, op) !in a.loop
    requires op.Poll? ==> (id, Cancel(op.d)) !in a.loop
    requires op.Cancel? ==> (id, Poll(op.d)) in a.loop
  {
    a.(loop := a.loop + {(id, op)})
  }

  /** Frees a watch. The loop must hold none of its completions. */
  function Free<I>(a: World<I>, id: I): World<I>
    requires id in a.heap && a.heap[id].fd in a.watches && a.watches[a.heap[id].fd] == id
    requires forall op: Op :: (id, op) !in a.loop
  {
    a.(watches := a.watches - {a.heap[id].fd}, heap := a.heap - {id})
  }

  function WriteSide<I>(a: World<I>, id: I, d: Dir, s: Side): World<I>
    requires id in a.heap
  {
    a.(heap := a.heap[id := Put(a.heap[id], d, s)])
  }

  /** What one half of updateWatch makes of a direction. */
  function Serve(s: Side, destroying: bool): Side {
    if s.want && !destroying && !s.active && !s.cancelling then s.(active := true)
    else if !s.want && s.active && !s.cancelling then s.(cancelling := true)
    else s
  }

  /** A completion submitted together with the flag that says so. */
  lemma SubmitKeeps<I>(a: World<I>, id: I, op: Op)
    requires id in a.heap && Agree(a)
    ensures var b := WriteSide(a, id, op.d, Flagged(Get(a.heap[id], op.d), op));
            Agree(b.(loop := b.loop + {(id, op)}))
  {
    var b := WriteSide(a, id, op.d, Flagged(Get(a.heap[id], op.d), op));
    var r := b.(loop := b.loop + {(id, op)});
    forall x, d: Dir | x in r.heap
      ensures Get(r.heap[x], d).active <==> (x, Poll(d)) in r.loop
      ensures Get(r.heap[x], d).cancelling <==> (x, Cancel(d)) in r.loop
    {
      assert Get(a.heap[x], d).active <==> (x, Poll(d)) in a.loop;
      assert Get(a.heap[x], d).cancelling <==> (x, Cancel(d)) in a.loop;
      assert Get(r.heap[x], d) == if x == id && d == op.d then Flagged(Get(a.heap[x], d), op) else Get(a.heap[x], d);
    }
  }

  function Flagged(s: Side, op: Op): Side {
    if op.Poll? then s.(active := true) else s.(cancelling := true)
  }

  lemma WritePairs<I>(a: World<I>, id: I, d: Dir, s: Side)
    requires id in a.heap && Paired(a)
    ensures Paired(WriteSide(a, id, d, s))
  {
  }

  /** One half of updateWatch. */
  function UpdateSide<I>(a: World<I>, id: I, d: Dir): (r: World<I>)
    requires id in a.heap && Agree(a) && Paired(a)
    ensures Agree(r) && Paired(r)
    ensures r.heap == a.heap[id := Put(a.heap[id], d, Serve(Get(a.heap[id], d), a.destroying))]
    ensures r.watches == a.watches && r.destroying == a.destroying
  {
    var s := Get(a.heap[id], d);
    var b := WriteSide(a, id, d, Serve(s, a.destroying));
    WritePairs(a, id, d, Serve(s, a.destroying));
    if s.want && !a.destroying && !s.active && !s.cancelling then
      SubmitKeeps(a, id, Poll(d));
      Submit(b, id, Poll(d))
    else if !s.want && s.active && !s.cancelling then
      SubmitKeeps(a, id, Cancel(d));
      Submit(b, id, Cancel(d))
    else
      assert b.heap == a.heap;
      b
  }

  function MaybeRetire<I>(a: World<I>, id: I): World<I>
    requires id in a.heap && Agree(a) && Paired(a)
  {
    if !Idle(a.heap[id]) then a
    else
      IdleIsUnheld(a, id);
      Free(a, id)
  }

  lemma IdleIsUnheld<I>(a: World<I>, id: I)
    requires id in a.heap && Agree(a) && Idle(a.heap[id])
    ensures forall op: Op :: (id, op) !in a.loop
  {
    forall op: Op ensures (id, op) !in a.loop {
      assert !Get(a.heap[id], op.d).active && !Get(a.heap[id], op.d).cancelling;
    }
  }

  function UpdateWatch<I>(a: World<I>, id: I): World<I>
    requires id in a.heap && Agree(a) && Paired(a)
  {
    MaybeRetire(UpdateSide(UpdateSide(a, id, In), id, Out), id)
  }

  function SetWants<I>(a: World<I>, id: I, readable: bool, writable: bool): World<I>
    requires id in a.heap
  {
    var w := a.heap[id];
    a.(heap := a.heap[id := w.(input := w.input.(want := readable), output := w.output.(want := writable))])
  }

  function Insert<I>(a: World<I>, id: I, fd: Fd): World<I> {
    var none := Side(false, false, false);
    a.(watches := a.watches[fd := id], heap := a.heap[id := Watch(fd, none, none, false)])
  }

  function Apply<I>(a: World<I>, id: I, readable: bool, writable: bool): World<I>
    requires id in a.heap && Agree(a) && Paired(a)
  {
    WantsKeep(a, id, readable, writable);
    UpdateWatch(SetWants(a, id, readable, writable), id)
  }

  /** The allocator only hands out memory that is not allocated. */
  predicate CanNest<I>(a: World<I>, n: Nested<I>) {
    n.SocketState? && n.alloc.Fresh? ==> n.alloc.id !in a.heap
  }

  /** onSocketState, with every outcome of its two allocations; and the start of a shutdown. */
  function Nest<I>(a: World<I>, n: Nested<I>): World<I>
    requires Agree(a) && Paired(a) && CanNest(a, n)
  {
    match n
    case Destroy => a.(destroying := true)
    case SocketState(fd, readable, writable, alloc) =>
      if a.destroying then
        if fd !in a.watches then a else Apply(a, a.watches[fd], false, false)
      else if fd in a.watches then Apply(a, a.watches[fd], readable, writable)
      else if !alloc.Fresh? then a
      else
        InsertKeeps(a, alloc.id, fd);
        Apply(Insert(a, alloc.id, fd), alloc.id, readable, writable)
  }

  // ----------------------------------------------------- what operations keep

  lemma WantsKeep<I>(a: World<I>, id: I, readable: bool, writable: bool)
    requires id in a.heap && Agree(a) && Paired(a)
    ensures Agree(SetWants(a, id, readable, writable)) && Paired(SetWants(a, id, readable, writable))
  {
  }

  lemma InsertKeeps<I>(a: World<I>, id: I, fd: Fd)
    requires Agree(a) && Paired(a) && id !in a.heap && fd !in a.watches
    ensures Agree(Insert(a, id, fd)) && Paired(Insert(a, id, fd))
  {
  }

  /** Every watch but `id` is settled or in its callback. */
  ghost predicate MidBut<I>(a: World<I>, id: I) {
    && Agree(a) && Paired(a)
    && forall other | other in a.heap && other != id ::
         a.heap[other].inCallback || Settled(a.heap[other], a.destroying)
  }

  /** `r` is `a` after an update of `id`: that watch is settled or gone, never gone while its
      callback is running, and every other watch is as it was. */
  ghost predicate Updated<I>(a: World<I>, id: I, r: World<I>)
    requires id in a.heap
  {
    && Agree(r) && Paired(r) && r.destroying == a.destroying
    && (forall other | other in a.heap && other != id :: other in r.heap && r.heap[other] == a.heap[other])
    && r.heap.Keys <= a.heap.Keys
    && (a.heap[id].inCallback ==> id in r.heap)
    && (id in r.heap ==>
          && r.heap[id].inCallback == a.heap[id].inCallback
          && (r.heap[id].inCallback || Settled(r.heap[id], r.destroying)))
  }

  lemma UpdateSettles<I>(a: World<I>, id: I)
    requires id in a.heap && Agree(a) && Paired(a)
    ensures Updated(a, id, UpdateWatch(a, id))
  {
    var b := UpdateSide(UpdateSide(a, id, In), id, Out);
    if Idle(b.heap[id]) {
      IdleIsUnheld(b, id);
      FreeKeeps(b, id);
    }
  }

  lemma UpdatedIsMid<I>(a: World<I>, id: I, r: World<I>)
    requires id in a.heap && MidBut(a, id) && Updated(a, id, r)
    ensures Mid(r) && Running(r) == Running(a) && r.destroying == a.destroying
  {
  }

  lemma FreeKeeps<I>(a: World<I>, id: I)
    requires id in a.heap && Agree(a) && Paired(a) && forall op: Op :: (id, op) !in a.loop
    ensures Agree(Free(a, id)) && Paired(Free(a, id))
  {
    var r := Free(a, id);
    forall c | c in r.loop ensures c.0 in r.heap {
      assert c == (c.0, c.1);
    }
  }

  /** A nested callback keeps the invariant and neither starts nor ends a running callback. */
  ghost predicate Kept<I>(a: World<I>, r: World<I>) {
    Mid(r) && Running(r) == Running(a)
  }

  lemma ApplyKeeps<I>(a: World<I>, id: I, readable: bool, writable: bool)
    requires id in a.heap && MidBut(a, id)
    ensures Kept(a, Apply(a, id, readable, writable))
  {
    var b := SetWants(a, id, readable, writable);
    WantsMid(a, id, readable, writable);
    UpdateSettles(b, id);
    UpdatedIsMid(b, id, UpdateWatch(b, id));
  }

  lemma WantsMid<I>(a: World<I>, id: I, readable: bool, writable: bool)
    requires id in a.heap && MidBut(a, id)
    ensures MidBut(SetWants(a, id, readable, writable), id)
    ensures Running(SetWants(a, id, readable, writable)) == Running(a)
  {
  }

  lemma InsertMid<I>(a: World<I>, id: I, fd: Fd)
    requires Mid(a) && id !in a.heap && fd !in a.watches
    ensures MidBut(Insert(a, id, fd), id) && Running(Insert(a, id, fd)) == Running(a)
  {
    InsertKeeps(a, id, fd);
  }

  lemma NestKeeps<I>(a: World<I>, n: Nested<I>)
    requires Mid(a) && CanNest(a, n)
    ensures Kept(a, Nest(a, n))
  {
    match n
    case Destroy =>
      assert Running(Nest(a, n)) == Running(a);
    case SocketState(fd, readable, writable, alloc) =>
      if a.destroying {
        if fd in a.watches { ApplyKeeps(a, a.watches[fd], false, false); }
      } else if fd in a.watches {
        ApplyKeeps(a, a.watches[fd], readable, writable);
      } else if alloc.Fresh? {
        InsertMid(a, alloc.id, fd);
        ApplyKeeps(Insert(a, alloc.id, fd), alloc.id, readable, writable);
      }
  }

  lemma NestPairs<I>(a: World<I>, n: Nested<I>)
    requires Agree(a) && Paired(a) && CanNest(a, n)
    ensures Agree(Nest(a, n)) && Paired(Nest(a, n))
  {
    match n
    case Destroy =>
    case SocketState(fd, readable, writable, alloc) =>
      if fd in a.watches {
        var id := a.watches[fd];
        WantsKeep(a, id, !a.destroying && readable, !a.destroying && writable);
        UpdateSettles(SetWants(a, id, !a.destroying && readable, !a.destroying && writable), id);
      } else if !a.destroying && alloc.Fresh? {
        InsertKeeps(a, alloc.id, fd);
        WantsKeep(Insert(a, alloc.id, fd), alloc.id, readable, writable);
        UpdateSettles(SetWants(Insert(a, alloc.id, fd), alloc.id, readable, writable), alloc.id);
      }
  }
}
