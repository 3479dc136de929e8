/** Epoll.cpp with its connections on the heap. Every method is proved to change the reactor
    the way ReactorModel says. */
module Epolls {
  import opened Kernels
  import opened Connections
  import opened ReactorModel
  import opened ReactorInvariant

  datatype EpollAction = ACTION_UPDATE | ACTION_DELETE

  /** Each connection has its own two buffers. */
  ghost predicate Separate(conns: set<Connection>, objects: set<object>) {
    && (forall c :: c in conns ==>
          c in objects && c.rbuffer in objects && c.wbuffer in objects && c.rbuffer != c.wbuffer)
    && (forall c, d :: c in conns && d in conns && c != d ==>
          c.rbuffer != d.rbuffer && c.wbuffer != d.wbuffer && c.rbuffer != d.wbuffer)
  }

  class Epoll {
    const kernel: Kernel
    var connMap: map<int, Connection?>
    /** The connections that exist. */
    ghost var conns: set<Connection>
    /** The callbacks that ran on each deleted connection. */
    ghost var gone: map<Connection, seq<Handler>>
    /** What the event loop has not dispatched yet of the last result of wait. */
    ghost var batch: seq<Connection>
    /** A callback has read past its buffer. */
    ghost var halted: bool
    /** What callbacks may write to: this object, the kernel, the connections and their
        buffers. */
    ghost var Repr: set<object>

    constructor (kernel: Kernel)
      ensures this.kernel == kernel
      ensures connMap == map[] && conns == {} && gone == map[] && batch == [] && !halted
      ensures OwnBuffers() && Repr == {this, kernel}
    {
      this.kernel := kernel;
      connMap, conns, gone, batch, halted := map[], {}, map[], [], false;
      Repr := {this, kernel};
    }

    /** Everything that callbacks may write to is recorded, and no two connections share a
        buffer. */
    ghost predicate OwnBuffers()
      reads this`conns, this`Repr
    {
      this in Repr && kernel in Repr && Separate(conns, Repr)
    }

    /** The reactor as a value. */
    ghost function View(): World
      reads this, kernel, conns, set c | c in conns :: c.rbuffer, set c | c in conns :: c.wbuffer
    {
      World(connMap, map c | c in conns :: c.State(), gone, kernel.foreign, kernel.streams, kernel.interest,
            kernel.closed, kernel.accepts, kernel.reports, batch, halted)
    }

    /** A newly constructed connection joins those that exist. */
    ghost method Adopt(c: Connection)
      requires OwnBuffers() && c !in Repr && c.rbuffer !in Repr && c.wbuffer !in Repr && c.rbuffer != c.wbuffer
      modifies this`conns, this`Repr
      ensures OwnBuffers() && conns == old(conns) + {c}
      ensures Repr == old(Repr) + {c, c.rbuffer, c.wbuffer}
      ensures View() == old(View()).(conns := old(View()).conns[c := c.State()])
    {
      conns := conns + {c};
      Repr := Repr + {c, c.rbuffer, c.wbuffer};
      assert View().conns == old(View()).conns[c := c.State()];
    }

    /** Epoll.cpp:19-39. */
    method UpdateConnection(conn: Connection, act: EpollAction)
      requires conn in conns
      modifies this`connMap, this`conns, this`gone, conn`inEpoll
      modifies kernel`interest, kernel`foreign, kernel`streams, kernel`closed
      ensures act == ACTION_UPDATE ==> View() == Updated(old(View()), conn) && conns == old(conns)
      ensures act == ACTION_DELETE ==> View() == Deleted(old(View()), conn)
      ensures old(OwnBuffers()) ==> OwnBuffers()
      ensures Repr == old(Repr)
    {
      if act == ACTION_UPDATE {
        if conn.inEpoll {
          Modify(conn);
        } else {
          Add(conn);
        }
      } else if conn.inEpoll {
        Delete(conn);
      }
    }

    /** One call of epoll_ctl. */
    method Control(op: EpollOp, conn: Connection)
      modifies kernel`interest
      ensures View() == old(View()).(interest :=
                match op
                case ADD => CtlAdd(old(kernel.interest), old(kernel.Open(conn.fd)), conn.fd, conn.event)
                case MOD => CtlMod(old(kernel.interest), conn.fd, conn.event)
                case DEL => old(kernel.interest) - {conn.fd})
    {
      kernel.EpollCtl(op, conn.fd, conn.event);
      assert View().conns == old(View()).conns;
    }

    method Modify(conn: Connection)
      requires conn in conns && conn.inEpoll
      modifies kernel`interest
      ensures View() == Updated(old(View()), conn)
    {
      Control(MOD, conn);
    }

    method Add(conn: Connection)
      requires conn in conns && !conn.inEpoll
      modifies this`connMap, conn`inEpoll, kernel`interest
      ensures View() == Updated(old(View()), conn)
    {
      Control(ADD, conn);
      SetInEpoll(conn);
      SetEntry(conn.fd, conn);
    }

    method SetInEpoll(conn: Connection)
      requires conn in conns
      modifies conn`inEpoll
      ensures View() == old(View()).(conns := old(View()).conns[conn := old(conn.State()).(inEpoll := true)])
    {
      conn.inEpoll := true;
      assert View().conns == old(View()).conns[conn := conn.State()];
    }

    method SetEntry(fd: int, c: Connection?)
      modifies this`connMap
      ensures View() == old(View()).(connMap := old(connMap)[fd := c])
    {
      connMap := connMap[fd := c];
      assert View().conns == old(View()).conns;
    }

    method Delete(conn: Connection)
      requires conn in conns && conn.inEpoll
      modifies this`connMap, this`conns, this`gone
      modifies kernel`interest, kernel`foreign, kernel`streams, kernel`closed
      ensures View() == Deleted(old(View()), conn) && conns == old(conns) - {conn}
    {
      Unregister(conn);
      Destroy(conn);
    }

    method Unregister(conn: Connection)
      modifies this`connMap, kernel`interest
      ensures View() == Unregistered(old(View()), conn)
    {
      SetEntry(conn.fd, null);
      Control(DEL, conn);
    }

    /** delete conn; Connection.cpp:20-27. */
    method Destroy(conn: Connection)
      requires conn in conns
      modifies this`conns, this`gone, kernel`interest, kernel`foreign, kernel`streams, kernel`closed
      ensures View() == Destroyed(old(View()), conn) && conns == old(conns) - {conn}
    {
      gone := gone[conn := conn.calls];
      conns := conns - {conn};
      kernel.Close(conn.fd);
      assert View().conns == old(View()).conns - {conn};
    }

    /** Epoll.cpp:41-53. The lookups add nothing to connMap, because every descriptor the
        kernel reports has an entry. */
    method Wait() returns (res: seq<Connection>, ghost fds: seq<int>, ghost events: seq<EpollEvent>)
      requires Agreement(View())
      requires batch == []
      modifies this`connMap, this`batch, conns`revent, kernel`reports
      ensures LegalBatch(old(View()), fds, events) && LookupsHit(old(View()), events)
      ensures View() == Waited(Polled(old(View()), events), events, |events|) && batch == res
    {
      ghost var start := View();
      var ready: seq<EpollEvent>;
      ready, fds := Poll();
      events := ready;
      LookupHits(start, fds, events);
      ghost var before := Polled(start, events);
      ghost var states := WaitStates(before, events, |events|);
      assert states[|events|] == Waited(before, events, |events|);
      res := Collect(ready, states);
    }

    /** Epoll.cpp:44. */
    method Poll() returns (events: seq<EpollEvent>, ghost fds: seq<int>)
      modifies kernel`reports
      ensures View() == Polled(old(View()), events) && LegalBatch(old(View()), fds, events)
    {
      events, fds := kernel.EpollWait(MAX_EPOLL_CONN);
      assert View().conns == old(View()).conns;
    }

    /** Epoll.cpp:43-52: the loop over the reported events. */
    method Collect(ready: seq<EpollEvent>, ghost states: seq<World>) returns (res: seq<Connection>)
      requires WaitTrace(View(), ready, states) && |states| == |ready| + 1 && batch == []
      modifies this`connMap, this`batch, conns`revent
      ensures View() == states[|ready|] && batch == res
    {
      res := [];
      for i := 0 to |ready|
        modifies this`connMap, this`batch, conns`revent
        invariant View() == states[i] && batch == res
      {
        var ev := ready[i];
        var c := Deliver(ev);
        res := res + [c];
      }
    }

    /** Epoll.cpp:47-50, one reported event. */
    method Deliver(ev: EpollEvent) returns (c: Connection)
      requires Hits(View(), ev.dataFd)
      modifies this`connMap, this`batch, conns`revent
      ensures View() == Delivered(old(View()), ev) && batch == old(batch) + [c]
    {
      c := Lookup(ev.dataFd);
      MarkReady(c, ev.events);
      PushBatch(c);
    }

    ghost method PushBatch(c: Connection)
      modifies this`batch
      ensures View() == old(View()).(batch := old(batch) + [c])
    {
      batch := batch + [c];
      assert View().conns == old(View()).conns;
    }

    ghost method PopBatch()
      requires batch != []
      modifies this`batch
      ensures View() == old(View()).(batch := old(batch)[1..])
      ensures Repr == old(Repr) && conns == old(conns) && halted == old(halted)
    {
      batch := batch[1..];
      assert View().conns == old(View()).conns;
    }

    ghost method Halt()
      modifies this`halted
      ensures View() == old(View()).(halted := true)
    {
      halted := true;
      assert View().conns == old(View()).conns;
    }

    /** connMap[fd] in C++: a missing entry is added as a null pointer. */
    method Lookup(fd: int) returns (c: Connection?)
      modifies this`connMap
      ensures c == if fd in old(connMap) then old(connMap)[fd] else null
      ensures View() == old(View()).(connMap := if fd in old(connMap) then old(connMap) else old(connMap)[fd := null])
    {
      if fd !in connMap {
        connMap := connMap[fd := null];
      }
      c := connMap[fd];
      assert View().conns == old(View()).conns;
    }

    method MarkReady(c: Connection, mask: Mask)
      requires c in conns
      modifies c`revent
      ensures View() == old(View()).(conns := old(View()).conns[c := old(c.State()).(revent := EpollEvent(c.fd, mask))])
    {
      c.SetREvent(mask);
      assert View().conns == old(View()).conns[c := c.State()];
    }

    /** Epoll.cpp:55-63: a callback is bound to the connection it is set on. */
    method SetRecvCallback(conn: Connection, f: Handler)
      requires conn in conns
      modifies conn`recvCallback
      ensures View() == OnRecv(old(View()), conn, Bound(f, conn))
    {
      conn.recvCallback := Bound(f, conn);
      assert View().conns == old(View()).conns[conn := conn.State()];
    }

    method SetSendCallback(conn: Connection, f: Handler)
      requires conn in conns
      modifies conn`sendCallback
      ensures View() == OnSend(old(View()), conn, Bound(f, conn))
    {
      conn.sendCallback := Bound(f, conn);
      assert View().conns == old(View()).conns[conn := conn.State()];
    }
  }
}
