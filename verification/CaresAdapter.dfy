/** The adapter as objects on the heap: watches are allocated, shared with the loop and freed. */
module CaresAdapter {
  import S = CaresSpec
  import R = CaresRuns

  method AnyOf(fds: set<int>) returns (fd: int)
    requires fds != {}
    ensures fd in fds
  {
    assert (forall x :: x !in fds) ==> fds == {};
    fd :| fd in fds;
  }

  class Watch {
    const fd: S.Fd
    var wantRead: bool
    var wantWrite: bool
    var readActive: bool
    var writeActive: bool
    var readCancelActive: bool
    var writeCancelActive: bool
    var callbackActive: bool

    ghost function View(): S.Watch
      reads this
    {
      S.Watch(fd, S.Side(wantRead, readActive, readCancelActive),
              S.Side(wantWrite, writeActive, writeCancelActive), callbackActive)
    }

    constructor (fd: S.Fd)
      ensures this.fd == fd
      ensures View() == S.Watch(fd, S.Side(false, false, false), S.Side(false, false, false), false)
    {
      this.fd := fd;
      wantRead, wantWrite, readActive, writeActive := false, false, false, false;
      readCancelActive, writeCancelActive, callbackActive := false, false, false;
    }
  }

  /** A socket state notification from c-ares, with the outcome of the two allocations it may
      need; or the start of a shutdown. */
  datatype Notice = Socket(fd: S.Fd, readable: int, writable: int, mapRoom: bool, memory: bool) | Shutdown

  /** `nested` is what `notice` says. */
  ghost predicate Told(notice: Notice, nested: S.Nested<Watch>) {
    match notice
    case Shutdown => nested == S.Destroy
    case Socket(fd, readable, writable, mapRoom, memory) =>
      && nested.SocketState? && nested == S.SocketState(fd, readable != 0, writable != 0, nested.alloc)
      && (nested.alloc.Fresh? ==> mapRoom && memory)
  }

  ghost predicate AllTold(notices: seq<Notice>, script: seq<S.Nested<Watch>>) {
    |script| == |notices| && forall i | 0 <= i < |notices| :: Told(notices[i], script[i])
  }

  class Adapter {
    var watches: map<S.Fd, Watch>
    var destroying: bool
    var integrationFailed: bool
    /** Watches allocated and not destroyed. */
    ghost var live: set<Watch>
    /** Completions the loop holds. */
    ghost var held: set<(Watch, S.Op)>

    ghost function View(): S.World<Watch>
      reads this, live
    {
      S.World(watches, map w | w in live :: w.View(), held, destroying)
    }

    ghost predicate Sound()
      reads this, live
    {
      S.Agree(View()) && S.Paired(View())
    }

    constructor ()
      ensures View() == R.Start() && live == {} && !integrationFailed
    {
      watches, destroying, integrationFailed := map[], false, false;
      live, held := {}, {};
    }

    method UpdateRead(w: Watch)
      requires w in live && Sound()
      modifies this`held, w`readActive, w`readCancelActive
      ensures View() == S.UpdateSide(old(View()), w, S.In)
    {
      if w.wantRead && !destroying && !w.readActive && !w.readCancelActive {
        w.readActive := true;
        held := held + {(w, S.Poll(S.In))};
      } else if !w.wantRead && w.readActive && !w.readCancelActive {
        w.readCancelActive := true;
        held := held + {(w, S.Cancel(S.In))};
      }
      assert View().heap == old(View()).heap[w := w.View()];
    }

    method UpdateWrite(w: Watch)
      requires w in live && Sound()
      modifies this`held, w`writeActive, w`writeCancelActive
      ensures View() == S.UpdateSide(old(View()), w, S.Out)
    {
      if w.wantWrite && !destroying && !w.writeActive && !w.writeCancelActive {
        w.writeActive := true;
        held := held + {(w, S.Poll(S.Out))};
      } else if !w.wantWrite && w.writeActive && !w.writeCancelActive {
        w.writeCancelActive := true;
        held := held + {(w, S.Cancel(S.Out))};
      }
      assert View().heap == old(View()).heap[w := w.View()];
    }

    /** Frees the watch when nothing refers to it. The map entry removed is that of the watch. */
    method MaybeRetire(w: Watch)
      requires w in live && Sound()
      modifies this`watches, this`live
      ensures View() == S.MaybeRetire(old(View()), w)
      ensures live == if S.Idle(w.View()) then old(live) - {w} else old(live)
    {
      if w.wantRead || w.wantWrite || w.readActive || w.writeActive ||
         w.readCancelActive || w.writeCancelActive || w.callbackActive
      {
        return;
      }
      assert View().heap[w] == w.View();
      assert w.fd in watches && watches[w.fd] == w;
      watches := watches - {w.fd};
      live := live - {w};
      assert View().heap == old(View()).heap - {w};
    }

    method UpdateWatch(w: Watch)
      requires w in live && Sound()
      modifies this`held, this`watches, this`live, w
      ensures View() == S.UpdateWatch(old(View()), w)
      ensures live <= old(live) && w.wantRead == old(w.wantRead) && w.wantWrite == old(w.wantWrite)
    {
      UpdateRead(w);
      UpdateWrite(w);
      MaybeRetire(w);
    }

    method Apply(w: Watch, readable: bool, writable: bool)
      requires w in live && Sound()
      modifies this`held, this`watches, this`live, w
      ensures View() == S.Apply(old(View()), w, readable, writable)
      ensures live <= old(live) && w.wantRead == readable && w.wantWrite == writable
    {
      w.wantRead := readable;
      w.wantWrite := writable;
      assert View().heap == old(View()).heap[w := w.View()];
      S.WantsKeep(old(View()), w, readable, writable);
      UpdateWatch(w);
    }

    /** A new watch in the map, both allocations having succeeded. */
    method Create(fd: S.Fd) returns (created: Watch)
      requires Sound() && fd !in watches
      modifies this`watches, this`live
      ensures fresh(created) && live == old(live) + {created}
      ensures created !in old(View()).heap && View() == S.Insert(old(View()), created, fd)
    {
      created := new Watch(fd);
      watches := watches[fd := created];
      live := live + {created};
      assert View().heap == old(View()).heap[created := created.View()];
    }

    method Track(fd: S.Fd, readable: bool, writable: bool) returns (created: Watch)
      requires Sound() && fd !in watches
      modifies this`watches, this`live, this`held
      ensures created !in old(View()).heap && fresh(live - old(live))
      ensures S.Agree(S.Insert(old(View()), created, fd)) && S.Paired(S.Insert(old(View()), created, fd))
      ensures View() == S.Apply(S.Insert(old(View()), created, fd), created, readable, writable)
      ensures created.wantRead == readable && created.wantWrite == writable
    {
      created := Create(fd);
      S.InsertKeeps(old(View()), created, fd);
      Apply(created, readable, writable);
    }

    method FailIntegration()
      modifies this`integrationFailed
      ensures integrationFailed && View() == old(View())
    {
      integrationFailed := true;
    }

    /** onSocketState. `alloc` says which allocation outcome the call met. */
    method OnSocketState(fd: S.Fd, readable: int, writable: int, mapRoom: bool, memory: bool)
      returns (ghost alloc: S.Alloc<Watch>)
      requires Sound()
      modifies this, live
      ensures S.CanNest(old(View()), S.SocketState(fd, readable != 0, writable != 0, alloc))
      ensures View() == S.Nest(old(View()), S.SocketState(fd, readable != 0, writable != 0, alloc))
      ensures fresh(live - old(live))
      ensures integrationFailed == (old(integrationFailed) ||
                (!old(destroying) && fd !in old(watches) && !(mapRoom && memory)))
      ensures alloc.Fresh? <==> !old(destroying) && fd !in old(watches) && mapRoom && memory
      ensures alloc.Fresh? ==> alloc.id.wantRead == (readable != 0) && alloc.id.wantWrite == (writable != 0)
      ensures fd in old(watches) ==>
                && old(watches)[fd].wantRead == (readable != 0 && !destroying)
                && old(watches)[fd].wantWrite == (writable != 0 && !destroying)
    {
      alloc := S.MapFull;
      if destroying {
        if fd in watches {
          Apply(watches[fd], false, false);
        }
      } else if fd in watches {
        Apply(watches[fd], readable != 0, writable != 0);
      } else {
        if !mapRoom {
          FailIntegration();
        } else if !memory {
          alloc := S.NoMemory;
          FailIntegration();
        } else {
          var created := Track(fd, readable != 0, writable != 0);
          alloc := S.Fresh(created);
        }
      }
    }

    method OnNotice(notice: Notice) returns (ghost nested: S.Nested<Watch>)
      requires Sound()
      modifies this, live
      ensures S.CanNest(old(View()), nested) && View() == S.Nest(old(View()), nested)
      ensures Told(notice, nested) && fresh(live - old(live))
    {
      match notice
      case Shutdown =>
        nested := S.Destroy;
        destroying := true;
        assert View().heap == old(View()).heap;
      case Socket(fd, readable, writable, mapRoom, memory) =>
        ghost var alloc := OnSocketState(fd, readable, writable, mapRoom, memory);
        nested := S.SocketState(fd, readable != 0, writable != 0, alloc);
    }

    /** Whatever c-ares calls back while the adapter is inside one of its functions. */
    method Callbacks(notices: seq<Notice>) returns (ghost script: seq<S.Nested<Watch>>)
      requires Sound()
      modifies this, live
      ensures R.CanScript(old(View()), script) && View() == R.RunScript(old(View()), script)
      ensures AllTold(notices, script) && fresh(live - old(live))
    {
      script := [];
      var i := 0;
      while i < |notices|
        invariant 0 <= i <= |notices| && AllTold(notices[..i], script)
        invariant R.CanScript(old(View()), script) && View() == R.RunScript(old(View()), script)
        invariant fresh(live - old(live))
      {
        ghost var nested := OnNotice(notices[i]);
        R.ScriptExtends(old(View()), script, nested);
        script := script + [nested];
        i := i + 1;
      }
    }

    /** Clears the flag of a completion the loop has handed back. */
    method TakeBack(w: Watch, op: S.Op, running: bool)
      requires w in live
      modifies this`held, w
      ensures View() == R.TakeBack(old(View()), w, op, running)
    {
      match op {
        case Poll(In) => w.readActive := false;
        case Poll(Out) => w.writeActive := false;
        case Cancel(In) => w.readCancelActive := false;
        case Cancel(Out) => w.writeCancelActive := false;
      }
      w.callbackActive := running;
      held := held - {(w, op)};
      assert View().heap == old(View()).heap[w := w.View()];
    }

    /** The end of onReadReady and onWriteReady. */
    method EndCallback(w: Watch)
      requires w in live && Sound()
      modifies this`held, this`watches, this`live, w
      ensures S.Agree(R.EndCallback(old(View()), w)) && S.Paired(R.EndCallback(old(View()), w))
      ensures View() == S.UpdateWatch(R.EndCallback(old(View()), w), w)
    {
      w.callbackActive := false;
      assert View().heap == old(View()).heap[w := w.View()];
      R.EndCallbackPairs(old(View()), w);
      UpdateWatch(w);
    }

    /** onReadReady (`d` is In) and onWriteReady (`d` is Out); `notices` is what c-ares calls
        back if the adapter gets to process the socket. */
    method OnReady(w: Watch, d: S.Dir, ok: bool, notices: seq<Notice>)
      returns (ghost script: seq<S.Nested<Watch>>)
      requires S.AtRest(View()) && w in live && (w, S.Poll(d)) in held
      modifies this, live
      ensures R.CanReady(old(View()), w, d, ok, script)
      ensures View() == R.Ready(old(View()), w, d, ok, script)
      ensures R.Processes(old(View()), w, d, ok) ==> AllTold(notices, script)
    {
      R.TakeBackKeeps(old(View()), w, S.Poll(d), true);
      TakeBack(w, S.Poll(d), true);
      script := [];
      if ok && (if d == S.In then w.wantRead else w.wantWrite) && !destroying {
        script := Callbacks(notices);
      }
      R.ProcessKeeps(old(View()), w, d, script);
      EndCallback(w);
    }

    /** onReadCancelled and onWriteCancelled. */
    method OnCancelled(w: Watch, d: S.Dir)
      requires S.AtRest(View()) && w in live && (w, S.Cancel(d)) in held
      modifies this, live
      ensures View() == R.Cancelled(old(View()), w, d)
    {
      R.TakeBackKeeps(old(View()), w, S.Cancel(d), false);
      TakeBack(w, S.Cancel(d), false);
      UpdateWatch(w);
    }

    /** Destroys what is left once the loop is gone: exactly the watches still allocated. */
    method DeinitAfterLoop() returns (destroyed: seq<Watch>)
      requires destroying && S.AtRest(View())
      modifies this
      ensures live == {} && watches == map[]
      ensures forall i, j | 0 <= i < j < |destroyed| :: destroyed[i] != destroyed[j]
      ensures forall w :: w in destroyed <==> w in old(live)
    {
      destroyed := [];
      var rest: set<S.Fd> := watches.Keys;
      forall w | w in live ensures w.fd in rest {
        assert w in View().heap;
      }
      while rest != {}
        invariant rest <= watches.Keys
        invariant unchanged(this)
        invariant forall w :: w in destroyed <==> w in live && w.fd !in rest
        invariant forall i, j | 0 <= i < j < |destroyed| :: destroyed[i] != destroyed[j]
      {
        var fd := AnyOf(rest);
        assert watches[fd] in View().heap && View().heap[watches[fd]].fd == fd;
        destroyed := destroyed + [watches[fd]];
        rest := rest - {fd};
        forall w | w in live && w.fd == fd ensures w == watches[fd] {
          assert w in View().heap;
        }
      }
      forall w | w in live ensures w in destroyed {
        assert w in View().heap;
      }
      watches, live := map[], {};
    }
  }
}
