/** What holds of the reactor between any two callbacks and at every wait, whatever the
    kernel reports and in whatever order it reuses descriptors. */
module ReactorInvariant {
  import opened Kernels
  import opened CStrings
  import opened Connections
  import opened ReactorModel

  // ---- the kernel's side ----

  ghost predicate KernelFits(w: World) {
    && (forall fd :: fd in w.foreign ==> fd >= 0)
    && (forall fd :: fd in w.streams ==> fd >= 0 && fd !in w.foreign)
    && w.accepts == |w.closed| + |w.streams|
  }

  // ---- three-way agreement ----

  /** For descriptors other than -1: the kernel's interest list, the non-null entries of
      connMap and the existing connections marked inEpoll are the same set, entry by entry,
      and the kernel has the mask the connection has. */
  ghost predicate Agreement(w: World) {
    EntriesAgree(w) && ConnectionsAgree(w)
  }

  ghost predicate EntriesAgree(w: World) {
    && (forall fd :: fd in w.interest <==> fd >= 0 && fd in w.connMap && w.connMap[fd] != null)
    && (forall fd :: fd in w.connMap && fd >= 0 && w.connMap[fd] != null ==>
          && w.connMap[fd] in w.conns
          && w.connMap[fd].fd == fd
          && w.interest[fd] == w.conns[w.connMap[fd]].event)
  }

  ghost predicate ConnectionsAgree(w: World) {
    forall c :: c in w.conns ==>
      && c.fd >= -1
      && w.conns[c].inEpoll
      && w.conns[c].event.dataFd == c.fd
      && (c.fd >= 0 ==> c.fd in w.connMap && w.connMap[c.fd] == c)
  }

  // ---- each connection ----

  /** Accepted, and no callback has run yet. */
  ghost predicate Fresh(w: World, c: Connection)
    requires c in w.conns
  {
    var s := w.conns[c];
    && s.calls == []
    && s.event.events == {IN, ET}
    && s.rlen == 0
    && (c.fd >= 0 ==> c.fd in w.streams && w.streams[c.fd] == Stream([], []))
  }

  /** recvCallback has run: the message is in the receive buffer, terminated, and nothing has
      been written. */
  ghost predicate Answering(w: World, c: Connection)
    requires c in w.conns
  {
    var s := w.conns[c];
    && s.calls == [RecvHandler]
    && s.event.events == {OUT}
    && c.fd in w.streams
    && w.streams[c.fd].output == []
    && |w.streams[c.fd].input| == s.rlen <= RECV_BUFFER_LENGTH
    && s.rbuffer == Filled(w.streams[c.fd].input, RECV_BUFFER_LENGTH)
    && 0 in s.rbuffer
  }

  ghost predicate ClientFits(w: World, c: Connection)
    requires c in w.conns
  {
    var s := w.conns[c];
    && |s.rbuffer| == RECV_BUFFER_LENGTH && |s.wbuffer| == SEND_BUFFER_LENGTH
    && s.recvCallback == Bound(RecvHandler, c)
    && s.sendCallback == Bound(SendHandler, c)
    && (Fresh(w, c) || Answering(w, c))
  }

  ghost predicate ListenerFits(w: World, l: Connection) {
    && l in w.conns && l.fd in w.foreign
    && w.conns[l].event.events == {IN, ET}
    && w.conns[l].recvCallback == Bound(AcceptHandler, l)
    && forall h :: h in w.conns[l].calls ==> h == AcceptHandler
  }

  /** Every open socket belongs to a connection in connMap. */
  ghost predicate NoOrphans(w: World) {
    forall fd :: fd in w.streams ==> fd in w.connMap && w.connMap[fd] != null
  }

  /** A closed session: what was written is the echo of what was received. */
  ghost predicate Echoed(st: Stream) {
    && |st.input| <= RECV_BUFFER_LENGTH
    && 0 in Filled(st.input, RECV_BUFFER_LENGTH)
    && exists before: seq<byte> :: |before| == SEND_BUFFER_LENGTH && st.output == Echo(st.input, before)
  }

  /** A deleted connection is gone for good, after exactly one recv and one send callback. */
  ghost predicate Departed(w: World) {
    && (forall c :: c in w.gone ==> c !in w.conns && w.gone[c] == [RecvHandler, SendHandler])
    && (forall st :: st in w.closed ==> Echoed(st))
    && |w.gone| == |w.closed|
  }

  // ---- the batch ----

  /** Every connection still to be dispatched exists, is the one registered under its
      descriptor, comes up once, and was reported with a mask inside its own. */
  ghost predicate BatchFits(w: World) {
    && (forall i, j :: 0 <= i < j < |w.batch| ==> w.batch[i] != w.batch[j])
    && (forall c :: c in w.batch ==> IsReady(w, c))
  }

  ghost predicate IsReady(w: World, c: Connection) {
    && c in w.conns && c.fd >= 0
    && c.fd in w.connMap && w.connMap[c.fd] == c
    && w.conns[c].revent.events <= w.conns[c].event.events + {ERR, HUP}
  }

  // ---- the invariant ----

  ghost predicate Serving(w: World, l: Connection) {
    && KernelFits(w)
    && Agreement(w)
    && ListenerFits(w, l)
    && (forall c :: c in w.conns && c != l ==> ClientFits(w, c))
    && NoOrphans(w)
    && Departed(w)
  }

  ghost predicate Inv(w: World, l: Connection) {
    Serving(w, l) && BatchFits(w)
  }

  /** A client whose fields and stream are as before is still served correctly. */
  lemma ClientStays(w: World, n: World, d: Connection)
    requires d in w.conns && ClientFits(w, d) && d in n.conns && n.conns[d] == w.conns[d]
    requires d.fd in w.streams ==> d.fd in n.streams && n.streams[d.fd] == w.streams[d.fd]
    ensures ClientFits(n, d)
  {
    assert Fresh(w, d) ==> Fresh(n, d);
    assert Answering(w, d) ==> Answering(n, d);
  }

  // ---- accept ----

  lemma RegisteredIsOpen(w: World, l: Connection, fd: int)
    requires Serving(w, l) && fd in w.interest
    ensures fd in w.foreign || fd in w.streams
  {
  }

  /** acceptCallback adds one client, registered with its mask and bound to its callbacks,
      and apart from the listener's log changes nothing that was there. */
  ghost predicate AcceptEffect(w: World, n: World, l: Connection, client: Connection, init: ConnState) {
    && l in w.conns && client !in w.conns && client !in w.gone
    && (client.fd == -1 || (client.fd >= 0 && client.fd !in w.foreign && client.fd !in w.streams
      && client.fd !in w.interest))
    && n == w.(
         connMap := w.connMap[client.fd := client],
         conns := w.conns[l := w.conns[l].(calls := w.conns[l].calls + [AcceptHandler])]
                         [client := init.(inEpoll := true, event := EpollEvent(client.fd, {ET, IN}),
                            recvCallback := Bound(RecvHandler, client), sendCallback := Bound(SendHandler, client))],
         streams := if client.fd >= 0 then w.streams[client.fd := Stream([], [])] else w.streams,
         interest := if client.fd >= 0 then w.interest[client.fd := EpollEvent(client.fd, {ET, IN})] else w.interest,
         accepts := if client.fd >= 0 then w.accepts + 1 else w.accepts)
  }

  lemma Overwrite<K, V>(m: map<K, V>, k: K, u: V, v: V)
    ensures m[k := u][k := v] == m[k := v]
  {
  }

  lemma AcceptHasEffect(w: World, l: Connection, client: Connection, init: ConnState)
    requires Serving(w, l) && NewState(init) && client !in w.conns && client !in w.gone
    requires client.fd == -1 || (client.fd >= 0 && client.fd !in w.foreign && client.fd !in w.streams)
    ensures AcceptEffect(w, AcceptStep(w, l, client, init), l, client, init)
  {
    if client.fd in w.interest {
      RegisteredIsOpen(w, l, client.fd);
    }
    assert client.fd !in w.interest;
    var logged := Logged(w, l, AcceptHandler);
    var s1 := init.(event := EpollEvent(client.fd, {ET, IN}));
    var s2 := s1.(inEpoll := true);
    var made := WithEvent(Accepted(logged, client, init), client, {ET, IN});
    Overwrite(logged.conns, client, init, s1);
    assert made.conns == logged.conns[client := s1];
    Overwrite(logged.conns, client, s1, s2);
    var registered := Updated(made, client);
    assert registered.conns == logged.conns[client := s2];
    var s3 := s2.(recvCallback := Bound(RecvHandler, client));
    Overwrite(logged.conns, client, s2, s3);
    assert OnRecv(registered, client, Bound(RecvHandler, client)).conns == logged.conns[client := s3];
    Overwrite(logged.conns, client, s3, s3.(sendCallback := Bound(SendHandler, client)));
  }

  lemma AcceptKeepsEntries(w: World, n: World, l: Connection, client: Connection, init: ConnState)
    requires EntriesAgree(w) && AcceptEffect(w, n, l, client, init)
    ensures EntriesAgree(n)
  {
  }

  lemma AcceptKeepsOwners(w: World, n: World, l: Connection, client: Connection, init: ConnState)
    requires Agreement(w) && NoOrphans(w) && AcceptEffect(w, n, l, client, init)
    ensures ConnectionsAgree(n) && NoOrphans(n)
  {
  }

  lemma AcceptFitsKernel(w: World, n: World, l: Connection, client: Connection, init: ConnState)
    requires KernelFits(w) && AcceptEffect(w, n, l, client, init)
    ensures KernelFits(n)
  {
  }

  lemma AcceptKeepsClients(w: World, n: World, l: Connection, client: Connection, init: ConnState)
    requires Serving(w, l) && NewState(init) && AcceptEffect(w, n, l, client, init)
    ensures ListenerFits(n, l) && Departed(n)
    ensures forall c :: c in n.conns && c != l ==> ClientFits(n, c)
  {
    forall c | c in n.conns && c != l
      ensures ClientFits(n, c)
    {
      if c == client {
        assert Fresh(n, c);
      } else {
        ClientStays(w, n, c);
      }
    }
  }

  lemma AcceptKeepsServing(w: World, l: Connection, client: Connection, init: ConnState)
    requires Serving(w, l) && NewState(init) && client !in w.conns && client !in w.gone
    requires client.fd == -1 || (client.fd >= 0 && client.fd !in w.foreign && client.fd !in w.streams)
    ensures Serving(AcceptStep(w, l, client, init), l)
  {
    var n := AcceptStep(w, l, client, init);
    AcceptHasEffect(w, l, client, init);
    AcceptKeepsEntries(w, n, l, client, init);
    AcceptKeepsOwners(w, n, l, client, init);
    AcceptFitsKernel(w, n, l, client, init);
    AcceptKeepsClients(w, n, l, client, init);
  }

  // ---- recv ----

  /** Updating an entry of a map does not change its size. */
  lemma SameSize<K, V>(m: map<K, V>, k: K, v: V)
    requires k in m
    ensures |m[k := v]| == |m|
  {
  }

  lemma StoredTwice(buffer: seq<byte>, at: nat, bytes: seq<byte>, more: seq<byte>)
    requires at + |bytes| + |more| <= |buffer|
    ensures Stored(Stored(buffer, at, bytes), at + |bytes|, more) == Stored(buffer, at, bytes + more)
  {
    var once := Stored(buffer, at, bytes);
    assert once[..at + |bytes|] == buffer[..at] + bytes;
    assert once[at + |bytes| + |more|..] == buffer[at + |bytes| + |more|..];
  }

  /** However the bytes are split into chunks, the receive loop leaves them in the buffer in
      order where it began, the rest of the buffer as it was, and rlen past them. */
  lemma {:induction false} DrainKeepsBytes(rbuffer: seq<byte>, rlen: nat, chunks: seq<seq<byte>>)
    requires rlen + |Flatten(chunks)| <= |rbuffer|
    ensures Drained(rbuffer, rlen, chunks) == (Stored(rbuffer, rlen, Flatten(chunks)), rlen + |Flatten(chunks)|)
  {
    if chunks == [] {
      assert rbuffer[..rlen] + [] + rbuffer[rlen..] == rbuffer;
    } else {
      DrainKeepsBytes(rbuffer, rlen, chunks[..|chunks| - 1]);
      StoredTwice(rbuffer, rlen, Flatten(chunks[..|chunks| - 1]), chunks[|chunks| - 1]);
    }
  }

  /** A cleared buffer holds the message and zeros behind it. */
  lemma StoredInZeros(bytes: seq<byte>, size: nat)
    requires |bytes| <= size
    ensures Stored(Zeros(size), 0, bytes) == Filled(bytes, size)
  {
    assert Zeros(size)[|bytes|..] == Zeros(size - |bytes|);
  }

  /** recvCallback on a client that has not run one: the whole message is in the buffer, and
      the connection waits for OUT; or the message filled the buffer without a NUL. */
  ghost predicate RecvEffect(w: World, n: World, c: Connection, input: seq<byte>) {
    && c in w.conns && c.fd in w.streams && |input| <= RECV_BUFFER_LENGTH
    && var overrun := 0 !in Filled(input, RECV_BUFFER_LENGTH);
       var event := if overrun then w.conns[c].event else EpollEvent(c.fd, {OUT});
       n == w.(
         conns := w.conns[c := w.conns[c].(rbuffer := Filled(input, RECV_BUFFER_LENGTH), rlen := |input|,
                    calls := [RecvHandler], event := event)],
         streams := w.streams[c.fd := Stream(input, [])],
         interest := if overrun then w.interest else w.interest[c.fd := event],
         halted := overrun)
  }

  /** Clearing and filling the buffer in one update. */
  lemma FillingHasEffect(w: World, c: Connection, chunks: seq<seq<byte>>)
    requires c in w.conns && c.fd in w.streams && w.conns[c].rlen == 0
    requires |Flatten(chunks)| <= |w.conns[c].rbuffer|
    ensures Filling(w, c, chunks) == w.(
              conns := w.conns[c := w.conns[c].(rbuffer := Filled(Flatten(chunks), |w.conns[c].rbuffer|),
                         rlen := |Flatten(chunks)|, calls := w.conns[c].calls + [RecvHandler])],
              streams := w.streams[c.fd := w.streams[c.fd].(input := w.streams[c.fd].input + Flatten(chunks))])
  {
    DrainKeepsBytes(Zeros(|w.conns[c].rbuffer|), 0, chunks);
    StoredInZeros(Flatten(chunks), |w.conns[c].rbuffer|);
    var s1 := w.conns[c].(calls := w.conns[c].calls + [RecvHandler]);
    var s2 := s1.(rbuffer := Zeros(|w.conns[c].rbuffer|));
    var s3 := s2.(rbuffer := Filled(Flatten(chunks), |w.conns[c].rbuffer|), rlen := |Flatten(chunks)|);
    Overwrite(w.conns, c, s1, s2);
    Overwrite(w.conns, c, s2, s3);
  }

  lemma RecvHasEffect(w: World, l: Connection, c: Connection, chunks: seq<seq<byte>>)
    requires Serving(w, l) && !w.halted && c in w.conns && c != l && c.fd >= 0 && Fresh(w, c)
    requires |Flatten(chunks)| <= RECV_BUFFER_LENGTH
    ensures |w.conns[c].rbuffer| == RECV_BUFFER_LENGTH
    ensures RecvEffect(w, RecvStep(w, c, chunks), c, Flatten(chunks))
  {
    assert ClientFits(w, c);
    var input := Flatten(chunks);
    FillingHasEffect(w, c, chunks);
    var s1 := w.conns[c].(rbuffer := Filled(input, RECV_BUFFER_LENGTH), rlen := |input|, calls := [] + [RecvHandler]);
    var s2 := s1.(event := EpollEvent(c.fd, {OUT}));
    assert [] + input == input;
    assert [] + [RecvHandler] == [RecvHandler];
    Overwrite(w.conns, c, s1, s2);
    assert c.fd in w.interest;
  }

  lemma RecvKeepsServing(w: World, n: World, l: Connection, c: Connection, input: seq<byte>)
    requires Serving(w, l) && c != l && RecvEffect(w, n, c, input) && !n.halted
    requires c in w.conns
    ensures Serving(n, l)
  {
    assert ClientFits(w, c);
    SameSize(w.streams, c.fd, Stream(input, []));
    RecvKeepsEntries(w, n, c, input);
    assert Answering(n, c);
    forall d | d in n.conns && d != l
      ensures ClientFits(n, d)
    {
      if d != c {
        DistinctDescriptors(w, c, d);
        ClientStays(w, n, d);
      }
    }
  }

  lemma RecvKeepsEntries(w: World, n: World, c: Connection, input: seq<byte>)
    requires KernelFits(w) && Agreement(w) && NoOrphans(w) && RecvEffect(w, n, c, input) && !n.halted
    ensures Agreement(n) && NoOrphans(n)
  {
    assert c.fd in w.connMap && w.connMap[c.fd] == c;
    assert forall fd :: fd in w.connMap && fd >= 0 && w.connMap[fd] != null && fd != c.fd ==> w.connMap[fd] != c;
  }

  /** Two connections never share an open descriptor. */
  lemma DistinctDescriptors(w: World, c: Connection, d: Connection)
    requires Agreement(w) && c in w.conns && d in w.conns && c != d && c.fd >= 0
    ensures c.fd != d.fd
  {
  }

  // ---- send ----

  /** sendCallback on a client that has its message: the echo is written, the descriptor
      closed, and the connection deleted. */
  ghost predicate SendEffect(w: World, n: World, c: Connection) {
    && c in w.conns && c.fd in w.streams
    && |w.conns[c].wbuffer| == SEND_BUFFER_LENGTH
    && |w.streams[c.fd].input| <= RECV_BUFFER_LENGTH
    && 0 in Filled(w.streams[c.fd].input, RECV_BUFFER_LENGTH)
    && var input := w.streams[c.fd].input;
       n == w.(
         connMap := w.connMap[c.fd := null],
         conns := w.conns - {c},
         gone := w.gone[c := [RecvHandler, SendHandler]],
         streams := w.streams - {c.fd},
         interest := w.interest - {c.fd},
         closed := w.closed + [Stream(input, Echo(input, w.conns[c].wbuffer))])
  }

  lemma Removed<K, V>(m: map<K, V>, k: K, v: V)
    ensures m[k := v] - {k} == m - {k}
  {
  }

  /** updateConnection(c, ACTION_UPDATE) on an open descriptor: registered with the
      connection's mask, whether it was in the epoll or not, and nothing else changed. */
  lemma UpdateRegisters(w: World, c: Connection)
    requires c in w.conns && (c.fd in w.foreign || c.fd in w.streams)
    requires w.conns[c].inEpoll <==> c.fd in w.interest
    requires w.conns[c].inEpoll ==> c.fd in w.connMap && w.connMap[c.fd] == c
    ensures Updated(w, c) == w.(
              interest := w.interest[c.fd := w.conns[c].event],
              connMap := w.connMap[c.fd := c],
              conns := w.conns[c := w.conns[c].(inEpoll := true)])
  {
    if w.conns[c].inEpoll {
      assert w.connMap[c.fd := c] == w.connMap;
      assert w.conns[c].(inEpoll := true) == w.conns[c];
      assert w.conns[c := w.conns[c]] == w.conns;
    }
  }

  /** updateConnection(c, ACTION_DELETE) does nothing to a connection outside the epoll. Any
      other is gone: no entry, no registration, its descriptor closed, its stream on record,
      and nothing else changed. */
  lemma DeleteRemoves(w: World, c: Connection)
    requires c in w.conns
    ensures !w.conns[c].inEpoll ==> Deleted(w, c) == w
    ensures w.conns[c].inEpoll ==>
              var n := Deleted(w, c);
              && n == w.(connMap := n.connMap, conns := n.conns, gone := n.gone, foreign := n.foreign,
                         streams := n.streams, interest := n.interest, closed := n.closed)
              && c !in n.conns && (forall d :: d in w.conns && d != c ==> d in n.conns && n.conns[d] == w.conns[d])
              && n.gone == w.gone[c := w.conns[c].calls] && n.connMap == w.connMap[c.fd := null]
              && n.interest == w.interest - {c.fd} && n.streams == w.streams - {c.fd}
              && n.foreign == w.foreign - {c.fd}
              && (c.fd in w.streams ==> n.closed == w.closed + [w.streams[c.fd]])
              && (c.fd !in w.streams ==> n.closed == w.closed)
  {
    assert w.interest - {c.fd} - {c.fd} == w.interest - {c.fd};
  }

  lemma DeletedHasEffect(w: World, c: Connection)
    requires c in w.conns && w.conns[c].inEpoll && c.fd in w.streams && c.fd !in w.foreign
    ensures Deleted(w, c) == w.(
              connMap := w.connMap[c.fd := null],
              conns := w.conns - {c},
              gone := w.gone[c := w.conns[c].calls],
              streams := w.streams - {c.fd},
              interest := w.interest - {c.fd},
              closed := w.closed + [w.streams[c.fd]])
  {
    assert w.foreign - {c.fd} == w.foreign;
    assert w.interest - {c.fd} - {c.fd} == w.interest - {c.fd};
  }

  lemma SendHasEffect(w: World, l: Connection, c: Connection)
    requires Serving(w, l) && c in w.conns && c != l && Answering(w, c)
    ensures CanSend(w, c) && SendEffect(w, SendStep(w, c), c)
  {
    assert ClientFits(w, c);
    var s := w.conns[c];
    var st := w.streams[c.fd];
    var wbuffer := Copied(s.wbuffer, s.rbuffer);
    var sent := Sent(w, c);
    assert [] + wbuffer[..s.rlen] == wbuffer[..s.rlen];
    assert sent.conns[c].calls == [RecvHandler, SendHandler];
    assert sent.streams[c.fd] == Stream(st.input, Echo(st.input, s.wbuffer));
    DeletedHasEffect(sent, c);
    Removed(w.conns, c, sent.conns[c]);
    Removed(w.streams, c.fd, sent.streams[c.fd]);
  }

  lemma SendKeepsEntries(w: World, n: World, c: Connection)
    requires KernelFits(w) && Agreement(w) && NoOrphans(w) && SendEffect(w, n, c)
    ensures Agreement(n) && NoOrphans(n)
  {
    assert c.fd in w.connMap && w.connMap[c.fd] == c;
    assert forall fd :: fd in w.connMap && fd >= 0 && w.connMap[fd] != null && fd != c.fd ==> w.connMap[fd] != c;
  }

  lemma RemovedSize(streams: map<int, Stream>, fd: int)
    requires fd in streams
    ensures |streams - {fd}| == |streams| - 1
  {
  }

  lemma SendKeepsClients(w: World, n: World, l: Connection, c: Connection)
    requires Serving(w, l) && c != l && SendEffect(w, n, c)
    ensures forall d :: d in n.conns && d != l ==> ClientFits(n, d)
  {
    forall d | d in n.conns && d != l
      ensures ClientFits(n, d)
    {
      DistinctDescriptors(w, c, d);
      ClientStays(w, n, d);
    }
  }

  lemma EchoIsEchoed(input: seq<byte>, before: seq<byte>)
    requires |input| <= RECV_BUFFER_LENGTH && 0 in Filled(input, RECV_BUFFER_LENGTH) && |before| == SEND_BUFFER_LENGTH
    ensures Echoed(Stream(input, Echo(input, before)))
  {
  }

  lemma DepartedGrows(w: World, n: World, c: Connection, st: Stream)
    requires Departed(w) && c in w.conns && Echoed(st)
    requires n.conns == w.conns - {c} && n.gone == w.gone[c := [RecvHandler, SendHandler]]
      && n.closed == w.closed + [st]
    ensures Departed(n)
  {
  }

  lemma SendKeepsDeparted(w: World, n: World, c: Connection)
    requires Departed(w) && SendEffect(w, n, c)
    ensures Departed(n)
  {
    var input := w.streams[c.fd].input;
    EchoIsEchoed(input, w.conns[c].wbuffer);
    DepartedGrows(w, n, c, Stream(input, Echo(input, w.conns[c].wbuffer)));
  }

  lemma SendKeepsKernel(w: World, n: World, c: Connection)
    requires KernelFits(w) && SendEffect(w, n, c)
    ensures KernelFits(n)
  {
    RemovedSize(w.streams, c.fd);
  }

  lemma SendKeepsServing(w: World, n: World, l: Connection, c: Connection)
    requires Serving(w, l) && c != l && SendEffect(w, n, c)
    ensures Serving(n, l)
  {
    SendKeepsEntries(w, n, c);
    SendKeepsClients(w, n, l, c);
    SendKeepsDeparted(w, n, c);
    SendKeepsKernel(w, n, c);
  }

  // ---- wait ----

  /** What wait does to the connections: revent, and nothing else. */
  ghost predicate OnlyRevents(w: World, n: World) {
    && n == w.(conns := n.conns, batch := n.batch)
    && n.conns.Keys == w.conns.Keys
    && forall c :: c in w.conns ==> n.conns[c] == w.conns[c].(revent := n.conns[c].revent)
  }

  lemma LookupHits(w: World, fds: seq<int>, events: seq<EpollEvent>)
    requires Agreement(w) && LegalBatch(w, fds, events)
    ensures LookupsHit(w, events)
    ensures forall i :: 0 <= i < |events| ==> events[i].dataFd == fds[i]
  {
    forall i | 0 <= i < |events|
      ensures events[i].dataFd == fds[i] && Hits(w, events[i].dataFd)
    {
      assert fds[i] in w.interest;
    }
  }

  /** wait is faithful: its result is the kernel's batch one for one and in order, each with
      the reported mask in revent; here after the first `k` events. */
  ghost predicate Faithful(w: World, n: World, fds: seq<int>, events: seq<EpollEvent>, k: nat)
    requires k <= |fds| == |events|
  {
    && OnlyRevents(w, n)
    && |n.batch| == |w.batch| + k
    && n.batch[..|w.batch|] == w.batch
    && forall i :: 0 <= i < k ==> Reported(w, n, n.batch[|w.batch| + i], fds[i], events[i].events)
  }

  ghost predicate Reported(w: World, n: World, c: Connection, fd: int, mask: Mask) {
    && fd in w.connMap && c == w.connMap[fd]
    && c in n.conns && c.fd == fd
    && n.conns[c].revent == EpollEvent(fd, mask)
  }

  /** The states that wait goes through. */
  ghost predicate WaitTrace(w: World, events: seq<EpollEvent>, states: seq<World>) {
    && |states| >= 1 && |states| <= |events| + 1 && states[0] == w
    && forall i {:trigger events[i]} :: 0 <= i < |states| - 1 ==>
         Arrives(states[i], events[i], states[i + 1])
  }

  ghost predicate Arrives(w: World, ev: EpollEvent, n: World) {
    Hits(w, ev.dataFd) && n == Delivered(w, ev)
  }

  lemma {:induction false} WaitStates(w: World, events: seq<EpollEvent>, n: nat) returns (states: seq<World>)
    requires LookupsHit(w, events) && n <= |events|
    ensures |states| == n + 1 && WaitTrace(w, events, states) && states[n] == Waited(w, events, n)
  {
    if n == 0 {
      states := [w];
    } else {
      var before := WaitStates(w, events, n - 1);
      assert Hits(w, events[n - 1].dataFd);
      var last := Waited(w, events, n);
      assert Arrives(before[n - 1], events[n - 1], last);
      states := before + [last];
      forall i | 0 <= i < n
        ensures Arrives(states[i], events[i], states[i + 1])
      {
        if i < n - 1 {
          assert Arrives(before[i], events[i], before[i + 1]);
        }
      }
    }
  }

  lemma WaitOneMore(w: World, prior: World, fds: seq<int>, events: seq<EpollEvent>, k: nat)
    requires k < |fds| == |events| && Faithful(w, prior, fds, events, k)
    requires fds[k] !in fds[..k] && events[k].dataFd == fds[k] && Hits(prior, fds[k]) && w.connMap[fds[k]].fd == fds[k]
    ensures Faithful(w, Delivered(prior, events[k]), fds, events, k + 1)
  {
    var n := Delivered(prior, events[k]);
    forall i | 0 <= i < k
      ensures Reported(w, n, n.batch[|w.batch| + i], fds[i], events[i].events)
    {
      assert Reported(w, prior, prior.batch[|w.batch| + i], fds[i], events[i].events);
      assert fds[i] in fds[..k];
    }
    assert Reported(w, n, n.batch[|w.batch| + k], fds[k], events[k].events);
  }

  lemma {:induction false} TraceIsFaithful(w: World, fds: seq<int>, events: seq<EpollEvent>, states: seq<World>, k: nat)
    requires Agreement(w) && LegalBatch(w, fds, events) && WaitTrace(w, events, states) && k < |states|
    ensures Faithful(w, states[k], fds, events, k)
  {
    if k > 0 {
      TraceIsFaithful(w, fds, events, states, k - 1);
      LookupHits(w, fds, events);
      assert fds[k - 1] in w.interest;
      WaitOneMore(w, states[k - 1], fds, events, k - 1);
    }
  }

  lemma WaitIsFaithful(w: World, fds: seq<int>, events: seq<EpollEvent>)
    requires Agreement(w) && LegalBatch(w, fds, events) && LookupsHit(w, events)
    ensures Faithful(w, Waited(w, events, |events|), fds, events, |events|)
  {
    var states := WaitStates(w, events, |events|);
    TraceIsFaithful(w, fds, events, states, |events|);
  }

  lemma ReventsKeepServing(w: World, n: World, l: Connection)
    requires Serving(w, l) && OnlyRevents(w, n)
    ensures Serving(n, l)
  {
    forall c | c in n.conns && c != l
      ensures ClientFits(n, c)
    {
      assert ClientFits(w, c);
      assert Fresh(w, c) ==> Fresh(n, c);
      assert Answering(w, c) ==> Answering(n, c);
    }
  }

  lemma FaithfulBatchFits(w: World, n: World, fds: seq<int>, events: seq<EpollEvent>)
    requires Agreement(w) && w.batch == [] && LegalBatch(w, fds, events) && Faithful(w, n, fds, events, |events|)
    ensures BatchFits(n)
  {
    forall i | 0 <= i < |n.batch|
      ensures n.batch[i].fd == fds[i] && IsReady(n, n.batch[i])
    {
      assert Reported(w, n, n.batch[|w.batch| + i], fds[i], events[i].events);
      assert fds[i] in w.interest;
    }
  }

  lemma PolledKeepsServing(w: World, l: Connection, events: seq<EpollEvent>)
    requires Serving(w, l)
    ensures Serving(Polled(w, events), l)
  {
  }

  lemma WaitKeepsInv(w: World, l: Connection, fds: seq<int>, events: seq<EpollEvent>)
    requires Serving(w, l) && w.batch == [] && LegalBatch(w, fds, events) && LookupsHit(w, events)
    ensures Inv(Waited(w, events, |events|), l)
  {
    var n := Waited(w, events, |events|);
    WaitIsFaithful(w, fds, events);
    ReventsKeepServing(w, n, l);
    FaithfulBatchFits(w, n, fds, events);
  }

  // ---- dispatch ----

  /** Every connection but `c` is as it was: its fields, its entry in connMap, and its entry
      in the interest list. */
  ghost predicate Untouched(w: World, n: World, c: Connection) {
    forall d :: d in w.conns && d != c ==>
      && d in n.conns && n.conns[d] == w.conns[d]
      && (d.fd >= 0 ==>
            && d.fd in w.connMap && d.fd in n.connMap && n.connMap[d.fd] == w.connMap[d.fd]
            && d.fd in w.interest && d.fd in n.interest && n.interest[d.fd] == w.interest[d.fd])
  }

  /** Which callback a ready connection gets: the listener accepts; a client with IN has not
      been called yet and receives; a client with OUT has its message and sends. */
  ghost predicate CallbackFits(w: World, l: Connection, c: Connection, cb: Callback) {
    && c in w.conns && cb.Bound? && cb.conn == c
    && (cb.handler == AcceptHandler ==> c == l)
    && (cb.handler == RecvHandler ==> c != l && c.fd >= 0 && Fresh(w, c))
    && (cb.handler == SendHandler ==> c != l && Answering(w, c))
  }

  lemma ChosenFits(w: World, l: Connection)
    requires Inv(w, l) && w.batch != []
    ensures w.batch[0] in w.conns
    ensures forall cb :: cb in Chosen(w.conns[w.batch[0]]) ==> CallbackFits(w, l, w.batch[0], cb)
  {
    var c := w.batch[0];
    assert IsReady(w, c);
    if c != l {
      assert ClientFits(w, c);
    }
  }

  /** Dispatch is always defined: the event loop never touches a deleted connection, never
      calls an empty std::function, and never runs a callback on a connection in the wrong
      state. */
  lemma DispatchIsDefined(w: World, l: Connection)
    requires Inv(w, l) && w.batch != []
    ensures DispatchDefined(w)
  {
    ChosenFits(w, l);
    var c := w.batch[0];
    forall cb | cb in Chosen(w.conns[c])
      ensures Defined(w, cb)
    {
      assert CallbackFits(w, l, c, cb);
      if cb.handler == SendHandler { SendHasEffect(w, l, c); }
      if cb.handler == RecvHandler { assert ClientFits(w, c); }
    }
  }

  lemma AcceptIsLocal(w: World, n: World, l: Connection, client: Connection, init: ConnState)
    requires Agreement(w) && AcceptEffect(w, n, l, client, init)
    ensures Untouched(w, n, l)
  {
  }

  lemma RecvIsLocal(w: World, n: World, c: Connection, input: seq<byte>)
    requires KernelFits(w) && Agreement(w) && RecvEffect(w, n, c, input)
    ensures Untouched(w, n, c)
  {
  }

  lemma SendIsLocal(w: World, n: World, c: Connection)
    requires KernelFits(w) && Agreement(w) && SendEffect(w, n, c)
    ensures Untouched(w, n, c)
  {
    assert forall d :: d in w.conns && d.fd >= 0 ==> d.fd in w.interest;
    forall d | d in w.conns && d != c ensures c.fd != d.fd { DistinctDescriptors(w, c, d); }
  }

  /** Running a callback touches only the connection it is bound to. */
  lemma InvokeIsLocal(w: World, l: Connection, cb: Callback, o: Outcome)
    requires Serving(w, l) && !w.halted && cb.Bound? && CallbackFits(w, l, cb.conn, cb) && Defined(w, cb)
      && Legal(w, cb, o)
    ensures Untouched(w, Invoked(w, cb, o), cb.conn)
    ensures !Invoked(w, cb, o).halted ==> Serving(Invoked(w, cb, o), l)
  {
    var c := cb.conn;
    match cb.handler
    case AcceptHandler =>
      var n := AcceptStep(w, l, o.client, o.init);
      AcceptHasEffect(w, l, o.client, o.init);
      AcceptIsLocal(w, n, l, o.client, o.init);
      AcceptKeepsServing(w, l, o.client, o.init);
    case RecvHandler =>
      var n := RecvStep(w, c, o.chunks);
      assert ClientFits(w, c);
      RecvHasEffect(w, l, c, o.chunks);
      RecvIsLocal(w, n, c, Flatten(o.chunks));
      if !n.halted { RecvKeepsServing(w, n, l, c, Flatten(o.chunks)); }
    case SendHandler =>
      var n := SendStep(w, c);
      SendHasEffect(w, l, c);
      SendIsLocal(w, n, c);
      SendKeepsServing(w, n, l, c);
  }
}
