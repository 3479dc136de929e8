/** The reactor of Epoll.cpp, EventLoop.cpp and Server.cpp as functions on one value: the
    registry, the connections it holds, and the kernel's side. */
module ReactorModel {
  import opened Kernels
  import opened CStrings
  import opened Connections

  /** Epoll.hpp:7. */
  const MAX_EPOLL_CONN: nat := 16384

  /** `conns` has every connection that exists and is not deleted, `gone` the callbacks that
      ran on the deleted ones. `reports` is what epoll_wait has returned, call by call, and
      `batch` what the event loop has not dispatched yet of the last result of wait. `halted`
      says that printf has read past the receive buffer, after which nothing is known. */
  datatype World = World(
    connMap: map<int, Connection?>,
    conns: map<Connection, ConnState>,
    gone: map<Connection, seq<Handler>>,
    foreign: set<int>,
    streams: map<int, Stream>,
    interest: map<int, EpollEvent>,
    closed: seq<Stream>,
    accepts: nat,
    reports: seq<seq<EpollEvent>>,
    batch: seq<Connection>,
    halted: bool)

  // ---- Epoll.cpp:19-39 ----

  /** updateConnection(c, ACTION_UPDATE). */
  function Updated(w: World, c: Connection): World
    requires c in w.conns
  {
    var s := w.conns[c];
    if s.inEpoll then
      w.(interest := CtlMod(w.interest, c.fd, s.event))
    else
      w.(interest := CtlAdd(w.interest, c.fd in w.foreign || c.fd in w.streams, c.fd, s.event),
         conns := w.conns[c := s.(inEpoll := true)],
         connMap := w.connMap[c.fd := c])
  }

  /** Epoll.cpp:34-35. */
  function Unregistered(w: World, c: Connection): World {
    w.(connMap := w.connMap[c.fd := null], interest := w.interest - {c.fd})
  }

  /** delete c: the destructor closes the descriptor, and the connection is gone. */
  function Destroyed(w: World, c: Connection): World
    requires c in w.conns
  {
    w.(interest := if c.fd in w.foreign || c.fd in w.streams then w.interest - {c.fd} else w.interest,
       foreign := w.foreign - {c.fd},
       streams := w.streams - {c.fd},
       closed := w.closed + (if c.fd in w.streams then [w.streams[c.fd]] else []),
       conns := w.conns - {c},
       gone := w.gone[c := w.conns[c].calls])
  }

  /** updateConnection(c, ACTION_DELETE). */
  function Deleted(w: World, c: Connection): World
    requires c in w.conns
  {
    if w.conns[c].inEpoll then Destroyed(Unregistered(w, c), c) else w
  }

  // ---- Epoll.cpp:41-53 ----

  /** A batch the kernel may report: registered descriptors, each once, with the data they
      were registered with. */
  ghost predicate LegalBatch(w: World, fds: seq<int>, events: seq<EpollEvent>) {
    && |events| == |fds| <= MAX_EPOLL_CONN
    && (forall i, j :: 0 <= i < j < |fds| ==> fds[i] != fds[j])
    && (forall i :: 0 <= i < |fds| ==>
          && fds[i] in w.interest
          && events[i].dataFd == w.interest[fds[i]].dataFd
          && events[i].events <= w.interest[fds[i]].events + {ERR, HUP})
  }

  /** Every lookup of wait finds a connection that exists. */
  ghost predicate LookupsHit(w: World, events: seq<EpollEvent>) {
    forall i :: 0 <= i < |events| ==> Hits(w, events[i].dataFd)
  }

  ghost predicate Hits(w: World, fd: int) {
    fd in w.connMap && w.connMap[fd] != null && w.connMap[fd] in w.conns
  }

  /** Epoll.cpp:47-50: one lookup and one setREvent. */
  function Delivered(w: World, ev: EpollEvent): World
    requires Hits(w, ev.dataFd)
  {
    var c := w.connMap[ev.dataFd];
    w.(conns := w.conns[c := w.conns[c].(revent := EpollEvent(c.fd, ev.events))], batch := w.batch + [c])
  }

  /** epoll_wait has returned `events`. */
  function Polled(w: World, events: seq<EpollEvent>): World {
    w.(reports := w.reports + [events])
  }

  /** wait after the first `n` reported events. */
  function Waited(w: World, events: seq<EpollEvent>, n: nat): (r: World)
    requires LookupsHit(w, events) && n <= |events|
    ensures r.connMap == w.connMap && r.conns.Keys == w.conns.Keys
  {
    if n == 0 then w else Delivered(Waited(w, events, n - 1), events[n - 1])
  }

  // ---- Server.cpp:33-53 ----

  function Logged(w: World, c: Connection, h: Handler): World
    requires c in w.conns
  {
    w.(conns := w.conns[c := w.conns[c].(calls := w.conns[c].calls + [h])])
  }

  /** accept returned client.fd, and the new connection was constructed as `init`. */
  function Accepted(w: World, client: Connection, init: ConnState): World {
    w.(conns := w.conns[client := init],
       streams := if client.fd == -1 then w.streams else w.streams[client.fd := Stream([], [])],
       accepts := if client.fd == -1 then w.accepts else w.accepts + 1)
  }

  function WithEvent(w: World, c: Connection, flags: Mask): World
    requires c in w.conns
  {
    w.(conns := w.conns[c := w.conns[c].(event := EpollEvent(c.fd, flags))])
  }

  function OnRecv(w: World, c: Connection, cb: Callback): World
    requires c in w.conns
  {
    w.(conns := w.conns[c := w.conns[c].(recvCallback := cb)])
  }

  function OnSend(w: World, c: Connection, cb: Callback): World
    requires c in w.conns
  {
    w.(conns := w.conns[c := w.conns[c].(sendCallback := cb)])
  }

  /** Server.cpp:48-52. */
  function ClientRegistered(w: World, client: Connection): World
    requires client in w.conns
  {
    var registered := Updated(WithEvent(w, client, {ET, IN}), client);
    OnSend(OnRecv(registered, client, Bound(RecvHandler, client)), client, Bound(SendHandler, client))
  }

  function AcceptStep(w: World, l: Connection, client: Connection, init: ConnState): World
    requires l in w.conns
  {
    ClientRegistered(Accepted(Logged(w, l, AcceptHandler), client, init), client)
  }

  // ---- Server.cpp:55-77 ----

  function Flatten(chunks: seq<seq<byte>>): seq<byte> {
    if chunks == [] then [] else Flatten(chunks[..|chunks| - 1]) + chunks[|chunks| - 1]
  }

  /** What recv may deliver before it reports end of stream or nothing more to read: nonempty
      chunks, none larger than the space that is left. */
  predicate LegalChunks(chunks: seq<seq<byte>>, space: int) {
    (forall i :: 0 <= i < |chunks| ==> chunks[i] != []) && |Flatten(chunks)| <= space
  }

  /** recv at position `at`. */
  function Stored(buffer: seq<byte>, at: nat, bytes: seq<byte>): (r: seq<byte>)
    requires at + |bytes| <= |buffer|
    ensures |r| == |buffer|
  {
    buffer[..at] + bytes + buffer[at + |bytes|..]
  }

  /** The receive loop: each chunk goes to position rlen, and rlen moves past it. */
  function Drained(rbuffer: seq<byte>, rlen: int, chunks: seq<seq<byte>>): (r: (seq<byte>, int))
    requires 0 <= rlen && rlen + |Flatten(chunks)| <= |rbuffer|
    ensures |r.0| == |rbuffer| && r.1 == rlen + |Flatten(chunks)|
  {
    if chunks == [] then (rbuffer, rlen)
    else
      var (buffer, len) := Drained(rbuffer, rlen, chunks[..|chunks| - 1]);
      var chunk := chunks[|chunks| - 1];
      (Stored(buffer, len, chunk), len + |chunk|)
  }

  /** More bytes delivered from a socket. */
  function Taken(streams: map<int, Stream>, fd: int, bytes: seq<byte>): map<int, Stream>
    requires fd in streams
  {
    streams[fd := streams[fd].(input := streams[fd].input + bytes)]
  }

  function Cleared(w: World, c: Connection): World
    requires c in w.conns
  {
    w.(conns := w.conns[c := w.conns[c].(rbuffer := Zeros(|w.conns[c].rbuffer|))])
  }

  /** The chunks are in the buffer, and taken from the stream. */
  function Read(w: World, c: Connection, chunks: seq<seq<byte>>): World
    requires c in w.conns && c.fd in w.streams
    requires 0 <= w.conns[c].rlen && w.conns[c].rlen + |Flatten(chunks)| <= |w.conns[c].rbuffer|
  {
    var s := w.conns[c];
    var (buffer, len) := Drained(s.rbuffer, s.rlen, chunks);
    w.(conns := w.conns[c := s.(rbuffer := buffer, rlen := len)],
       streams := Taken(w.streams, c.fd, Flatten(chunks)))
  }

  /** The buffer is cleared and filled. */
  function Filling(w: World, c: Connection, chunks: seq<seq<byte>>): World
    requires c in w.conns && c.fd in w.streams
    requires 0 <= w.conns[c].rlen && w.conns[c].rlen + |Flatten(chunks)| <= |w.conns[c].rbuffer|
  {
    Read(Cleared(Logged(w, c, RecvHandler), c), c, chunks)
  }

  /** The buffer is printed as a C string; then the mask becomes OUT. */
  function Printed(w: World, c: Connection): World
    requires c in w.conns
  {
    if 0 !in w.conns[c].rbuffer then w.(halted := true) else Updated(WithEvent(w, c, {OUT}), c)
  }

  function RecvStep(w: World, c: Connection, chunks: seq<seq<byte>>): World
    requires c in w.conns && c.fd in w.streams
    requires 0 <= w.conns[c].rlen && w.conns[c].rlen + |Flatten(chunks)| <= |w.conns[c].rbuffer|
  {
    Printed(Filling(w, c, chunks), c)
  }

  // ---- Server.cpp:79-88 ----

  /** strcpy needs a terminated receive buffer, write a length inside the send buffer. */
  predicate CanSend(w: World, c: Connection) {
    && c in w.conns && c.fd in w.streams
    && 0 in w.conns[c].rbuffer
    && |w.conns[c].rbuffer| <= |w.conns[c].wbuffer|
    && 0 <= w.conns[c].rlen <= |w.conns[c].wbuffer|
  }

  function Sent(w: World, c: Connection): World
    requires CanSend(w, c)
  {
    var s := w.conns[c];
    var wbuffer := Copied(s.wbuffer, s.rbuffer);
    var st := w.streams[c.fd];
    w.(conns := w.conns[c := s.(wbuffer := wbuffer, wlen := s.rlen, calls := s.calls + [SendHandler])],
       streams := w.streams[c.fd := st.(output := st.output + wbuffer[..s.rlen])])
  }

  function SendStep(w: World, c: Connection): World
    requires CanSend(w, c)
  {
    Deleted(Sent(w, c), c)
  }

  // ---- EventLoop.cpp:13-23 ----

  /** What the kernel answers while one ready connection is dispatched. */
  datatype Outcome =
    | Accepting(client: Connection, init: ConnState)
    | Receiving(chunks: seq<seq<byte>>)
    | NoAnswer

  /** The callback that the event loop runs for a ready connection, if any. */
  function Chosen(s: ConnState): seq<Callback> {
    if IN in s.revent.events then [s.recvCallback]
    else if OUT in s.revent.events then [s.sendCallback]
    else []
  }

  /** The callback can run: it is bound, to a connection that exists, and what it reads and
      writes is there. None of this is checked by the program. */
  ghost predicate Defined(w: World, cb: Callback) {
    && cb.Bound? && cb.conn in w.conns
    && match cb.handler
       case AcceptHandler => true
       case RecvHandler =>
         && cb.conn.fd in w.streams
         && |w.conns[cb.conn].rbuffer| == RECV_BUFFER_LENGTH
         && 0 <= w.conns[cb.conn].rlen <= RECV_BUFFER_LENGTH
       case SendHandler => CanSend(w, cb.conn)
  }

  /** The kernel's answer fits the callback. */
  ghost predicate Legal(w: World, cb: Callback, o: Outcome)
    requires Defined(w, cb)
  {
    match cb.handler
    case AcceptHandler =>
      && o.Accepting? && NewState(o.init)
      && o.client !in w.conns && o.client !in w.gone
      && (o.client.fd == -1
          || (o.client.fd >= 0 && o.client.fd !in w.foreign && o.client.fd !in w.streams))
    case RecvHandler =>
      o.Receiving? && LegalChunks(o.chunks, RECV_BUFFER_LENGTH - w.conns[cb.conn].rlen)
    case SendHandler => o.NoAnswer?
  }

  ghost function Invoked(w: World, cb: Callback, o: Outcome): World
    requires Defined(w, cb) && Legal(w, cb, o)
  {
    match cb.handler
    case AcceptHandler => AcceptStep(w, cb.conn, o.client, o.init)
    case RecvHandler => RecvStep(w, cb.conn, o.chunks)
    case SendHandler => SendStep(w, cb.conn)
  }

  // ---- Server.cpp:18-30 ----

  /** An epoll with nothing registered. */
  ghost function Idle(foreign: set<int>): World {
    World(map[], map[], map[], foreign, map[], map[], [], 0, [], [], false)
  }

  /** The listening socket is registered for IN and bound to acceptCallback. */
  function ListenerRegistered(w: World, l: Connection): World
    requires l in w.conns
  {
    OnRecv(Updated(WithEvent(w, l, {IN, ET}), l), l, Bound(AcceptHandler, l))
  }

  /** A server just built on a new epoll. */
  ghost function Started(foreign: set<int>, l: Connection, init: ConnState): World {
    ListenerRegistered(Idle(foreign).(conns := map[][l := init]), l)
  }

  // ---- runs ----

  datatype Event =
    | WaitReturns(fds: seq<int>, events: seq<EpollEvent>)
    | Dispatch(outcome: Outcome)

  /** The next ready connection can be dispatched: it still exists, and the callback its mask
      selects can run. */
  ghost predicate DispatchDefined(w: World) {
    && w.batch != [] && w.batch[0] in w.conns
    && forall cb :: cb in Chosen(w.conns[w.batch[0]]) ==> Defined(w, cb)
  }

  /** The callback that the mask of `c` selects, if any, has run. */
  ghost function Called(w: World, c: Connection, o: Outcome): World
    requires c in w.conns
    requires forall cb :: cb in Chosen(w.conns[c]) ==> Defined(w, cb) && Legal(w, cb, o)
  {
    var chosen := Chosen(w.conns[c]);
    if chosen == [] then w else Invoked(w, chosen[0], o)
  }

  ghost predicate Enabled(w: World, ev: Event) {
    && !w.halted
    && match ev
       case WaitReturns(fds, events) =>
         w.batch == [] && LegalBatch(w, fds, events) && LookupsHit(w, events)
       case Dispatch(o) =>
         DispatchDefined(w) && forall cb :: cb in Chosen(w.conns[w.batch[0]]) ==> Legal(w, cb, o)
  }

  ghost function Next(w: World, ev: Event): World
    requires Enabled(w, ev)
  {
    match ev
    case WaitReturns(_, events) => Waited(Polled(w, events), events, |events|)
    case Dispatch(o) =>
      Called(w, w.batch[0], o).(batch := w.batch[1..])
  }

  ghost predicate IsRun(w: World, run: seq<Event>)
    decreases |run|
  {
    run == [] || (Enabled(w, run[0]) && IsRun(Next(w, run[0]), run[1..]))
  }

  ghost function After(w: World, run: seq<Event>): World
    requires IsRun(w, run)
    decreases |run|
  {
    if run == [] then w else After(Next(w, run[0]), run[1..])
  }
}
