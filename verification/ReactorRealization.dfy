/** The other direction: what the server promises does happen. Whatever clients come, some run
    of the event loop serves them all, and a message that overruns the buffer does stop it. */
module ReactorRealization {
  import opened Kernels
  import opened CStrings
  import opened Connections
  import opened ReactorModel
  import opened ReactorInvariant
  import opened ReactorRuns
  import opened ReactorGuarantees

  /** One client: the connection that accept makes for it, as constructed, and the chunks in
      which recv delivers its message. */
  datatype Visit = Visit(client: Connection, init: ConnState, chunks: seq<seq<byte>>)

  function Message(v: Visit): seq<byte> {
    Flatten(v.chunks)
  }

  ghost predicate Terminated(v: Visit) {
    |Message(v)| <= RECV_BUFFER_LENGTH && 0 in Filled(Message(v), RECV_BUFFER_LENGTH)
  }

  /** What is on record for the client's socket once it is closed. */
  ghost function Served(v: Visit): Stream
    requires Terminated(v) && NewState(v.init)
  {
    Stream(Message(v), Echo(Message(v), v.init.wbuffer))
  }

  /** A client that can come while `open` are open sockets and `known` connections that exist
      or have existed. */
  ghost predicate CanCome(v: Visit, open: set<int>, known: set<Connection>) {
    && v.client !in known && v.client.fd >= 0 && v.client.fd !in open
    && NewState(v.init) && [] !in v.chunks && |Message(v)| <= RECV_BUFFER_LENGTH
  }

  /** Between two rounds. */
  ghost predicate Quiet(w: World, l: Connection) {
    Inv(w, l) && !w.halted && w.batch == []
  }

  ghost predicate CanVisit(w: World, v: Visit) {
    CanCome(v, w.foreign + w.streams.Keys, w.conns.Keys + w.gone.Keys)
  }

  // ---- one round with one ready connection ----

  ghost function ReportedAlone(w: World, c: Connection, flag: Flag): World
    requires c in w.conns
  {
    var ev := EpollEvent(c.fd, {flag});
    w.(conns := w.conns[c := w.conns[c].(revent := ev)], reports := w.reports + [[ev]], batch := [c])
  }

  lemma ReportOne(w: World, l: Connection, c: Connection, flag: Flag)
    requires Quiet(w, l) && c in w.conns && c.fd >= 0 && flag in w.conns[c].event.events
    ensures var ev := WaitReturns([c.fd], [EpollEvent(c.fd, {flag})]);
      && Enabled(w, ev) && Next(w, ev) == ReportedAlone(w, c, flag)
    ensures Inv(ReportedAlone(w, c, flag), l)
  {
    var events := [EpollEvent(c.fd, {flag})];
    var ev := WaitReturns([c.fd], events);
    assert c.fd in w.interest && w.interest[c.fd] == w.conns[c].event;
    assert LegalBatch(w, [c.fd], events);
    assert Hits(w, c.fd);
    assert Enabled(w, ev);
    var polled := Polled(w, events);
    assert Waited(polled, events, 0) == polled;
    assert Waited(polled, events, 1) == Delivered(polled, events[0]);
    assert Next(w, ev) == ReportedAlone(w, c, flag);
    StepKeepsInv(w, l, ev);
  }

  /** The round in which `c` alone is ready, and the kernel gives its callback the answer `o`. */
  ghost function RoundOf(c: Connection, flag: Flag, o: Outcome): seq<Event> {
    [WaitReturns([c.fd], [EpollEvent(c.fd, {flag})]), Dispatch(o)]
  }

  lemma DispatchHead(m: World, c: Connection, cb: Callback, o: Outcome)
    requires !m.halted && m.batch != [] && m.batch[0] == c && c in m.conns && Chosen(m.conns[c]) == [cb]
    requires Defined(m, cb) && Legal(m, cb, o)
    ensures Enabled(m, Dispatch(o)) && Next(m, Dispatch(o)) == Invoked(m, cb, o).(batch := m.batch[1..])
    ensures |m.batch| == 1 ==> m.batch[1..] == []
  {
    var chosen := Chosen(m.conns[c]);
    assert chosen[0] == cb;
  }

  lemma RoundRuns(w: World, l: Connection, c: Connection, flag: Flag, cb: Callback, o: Outcome)
    requires Quiet(w, l) && c in w.conns && c.fd >= 0 && flag in w.conns[c].event.events
    requires (flag == IN && cb == w.conns[c].recvCallback) || (flag == OUT && cb == w.conns[c].sendCallback)
    requires Defined(ReportedAlone(w, c, flag), cb) && Legal(ReportedAlone(w, c, flag), cb, o)
    ensures IsRun(w, RoundOf(c, flag, o))
    ensures After(w, RoundOf(c, flag, o)) == Invoked(ReportedAlone(w, c, flag), cb, o).(batch := [])
    ensures !After(w, RoundOf(c, flag, o)).halted ==> Inv(After(w, RoundOf(c, flag, o)), l)
  {
    var m := ReportedAlone(w, c, flag);
    ReportOne(w, l, c, flag);
    DispatchHead(m, c, cb, o);
    TwoSteps(w, WaitReturns([c.fd], [EpollEvent(c.fd, {flag})]), Dispatch(o));
    StepKeepsInv(m, l, Dispatch(o));
  }

  // ---- accept, receive, send ----

  /** What accepting `v` leaves for the rest of its visit. */
  ghost predicate IsIn(w: World, n: World, v: Visit) {
    && n.foreign == w.foreign && n.gone == w.gone && n.closed == w.closed
    && n.conns.Keys == w.conns.Keys + {v.client}
    && n.streams == w.streams[v.client.fd := Stream([], [])]
    && n.conns[v.client].wbuffer == v.init.wbuffer
    && Fresh(n, v.client)
  }

  lemma AcceptVisit(w: World, l: Connection, v: Visit) returns (run: seq<Event>, n: World)
    requires Quiet(w, l) && CanVisit(w, v)
    ensures IsRun(w, run) && After(w, run) == n && Quiet(n, l)
    ensures v.client != l && IsIn(w, n, v)
  {
    var o := Accepting(v.client, v.init);
    run := RoundOf(l, IN, o);
    ReportOne(w, l, l, IN);
    RoundRuns(w, l, l, IN, w.conns[l].recvCallback, o);
    n := After(w, run);
    AcceptHasEffect(ReportedAlone(w, l, IN), l, v.client, v.init);
    AcceptLeaves(w, ReportedAlone(w, l, IN), AcceptStep(ReportedAlone(w, l, IN), l, v.client, v.init), l, v);
  }

  lemma AcceptLeaves(w: World, m: World, n: World, l: Connection, v: Visit)
    requires l in w.conns && m == ReportedAlone(w, l, IN) && AcceptEffect(m, n, l, v.client, v.init)
    requires NewState(v.init) && v.client.fd >= 0
    ensures IsIn(w, n.(batch := []), v) && v.client != l
  {
    var s := n.conns[v.client];
    assert s == v.init.(inEpoll := true, event := EpollEvent(v.client.fd, {ET, IN}),
                        recvCallback := Bound(RecvHandler, v.client), sendCallback := Bound(SendHandler, v.client));
    assert n.streams[v.client.fd] == Stream([], []);
    assert n.conns.Keys == w.conns.Keys + {v.client};
  }

  ghost predicate EndsWith(run: seq<Event>, ev: Event) {
    run != [] && run[|run| - 1] == ev
  }

  lemma LastStays(run: seq<Event>, more: seq<Event>, ev: Event)
    requires EndsWith(more, ev)
    ensures EndsWith(run + more, ev)
  {
  }

  /** What receiving the message of `c` leaves. */
  ghost predicate HasSent(w: World, n: World, c: Connection, input: seq<byte>)
    requires c in w.conns
  {
    && n.foreign == w.foreign && n.gone == w.gone && n.closed == w.closed
    && n.conns.Keys == w.conns.Keys
    && n.streams == w.streams[c.fd := Stream(input, [])]
    && n.conns[c].wbuffer == w.conns[c].wbuffer
  }

  lemma ReceiveVisit(w: World, l: Connection, c: Connection, chunks: seq<seq<byte>>)
    returns (run: seq<Event>, n: World)
    requires Quiet(w, l) && c in w.conns && c != l && c.fd >= 0 && Fresh(w, c)
    requires LegalChunks(chunks, RECV_BUFFER_LENGTH)
    ensures IsRun(w, run) && After(w, run) == n && HasSent(w, n, c, Flatten(chunks))
    ensures EndsWith(run, Dispatch(Receiving(chunks)))
    ensures n.halted <==> 0 !in Filled(Flatten(chunks), RECV_BUFFER_LENGTH)
    ensures !n.halted ==> Quiet(n, l) && Answering(n, c)
  {
    assert ClientFits(w, c);
    var o := Receiving(chunks);
    run := RoundOf(c, IN, o);
    ReportOne(w, l, c, IN);
    RoundRuns(w, l, c, IN, w.conns[c].recvCallback, o);
    n := After(w, run);
    RecvHasEffect(ReportedAlone(w, c, IN), l, c, chunks);
  }

  /** What closing the socket of `c` leaves. */
  ghost predicate HasLeft(w: World, n: World, c: Connection, st: Stream)
    requires c in w.conns
  {
    && n.foreign == w.foreign && n.gone.Keys == w.gone.Keys + {c}
    && n.conns.Keys == w.conns.Keys - {c}
    && n.streams == w.streams - {c.fd}
    && n.closed == w.closed + [st]
  }

  lemma SendVisit(w: World, l: Connection, c: Connection, input: seq<byte>) returns (run: seq<Event>, n: World)
    requires Quiet(w, l) && c in w.conns && c != l && c.fd >= 0 && Answering(w, c)
    requires w.streams[c.fd].input == input
    ensures |input| <= RECV_BUFFER_LENGTH && 0 in Filled(input, RECV_BUFFER_LENGTH)
    ensures |w.conns[c].wbuffer| == SEND_BUFFER_LENGTH
    ensures IsRun(w, run) && After(w, run) == n && Quiet(n, l)
    ensures HasLeft(w, n, c, Stream(input, Echo(input, w.conns[c].wbuffer)))
  {
    assert ClientFits(w, c);
    var m := ReportedAlone(w, c, OUT);
    run := RoundOf(c, OUT, NoAnswer);
    ReportOne(w, l, c, OUT);
    SendHasEffect(m, l, c);
    RoundRuns(w, l, c, OUT, w.conns[c].sendCallback, NoAnswer);
    n := After(w, run);
    SendLeaves(w, m, SendStep(m, c), c);
  }

  lemma SendLeaves(w: World, m: World, n: World, c: Connection)
    requires c in w.conns && m == ReportedAlone(w, c, OUT) && SendEffect(m, n, c)
    ensures var input := w.streams[c.fd].input;
      HasLeft(w, n.(batch := []), c, Stream(input, Echo(input, w.conns[c].wbuffer)))
    ensures !n.halted <==> !w.halted
  {
    assert m.conns[c].wbuffer == w.conns[c].wbuffer;
    assert n.conns.Keys == w.conns.Keys - {c};
  }

  // ---- whole visits ----

  /** A whole visit: the client is echoed and gone, and everybody else is still there. */
  ghost predicate Visited(w: World, n: World, v: Visit)
    requires Terminated(v) && NewState(v.init)
  {
    && n.closed == w.closed + [Served(v)]
    && n.foreign == w.foreign && n.streams == w.streams
    && n.conns.Keys == w.conns.Keys && n.gone.Keys == w.gone.Keys + {v.client}
  }

  lemma StepsOfVisit(w: World, n1: World, n2: World, n3: World, v: Visit)
    requires CanVisit(w, v) && Terminated(v)
    requires IsIn(w, n1, v) && HasSent(n1, n2, v.client, Message(v))
    requires HasLeft(n2, n3, v.client, Served(v))
    ensures Visited(w, n3, v)
  {
    OpenedAndClosed(w.streams, v.client.fd, Stream([], []), Stream(Message(v), []));
  }

  lemma OpenedAndClosed<K, V>(m: map<K, V>, k: K, u: V, v: V)
    requires k !in m
    ensures m[k := u][k := v] - {k} == m
  {
  }

  /** In every state between two rounds, a new client can be served from beginning to end,
      whatever other clients are doing; or its message overruns the buffer. */
  lemma ServeVisit(w: World, l: Connection, v: Visit) returns (run: seq<Event>, n: World)
    requires Quiet(w, l) && CanVisit(w, v)
    ensures IsRun(w, run) && After(w, run) == n
    ensures n.halted <==> !Terminated(v)
    ensures Terminated(v) ==> Quiet(n, l) && Visited(w, n, v)
    ensures !Terminated(v) ==> EndsWith(run, Dispatch(Receiving(v.chunks)))
  {
    var first, n1 := AcceptVisit(w, l, v);
    var second, n2 := ReceiveVisit(n1, l, v.client, v.chunks);
    RunConcat(w, first, second);
    if Terminated(v) {
      var third, n3 := SendVisit(n2, l, v.client, Message(v));
      RunConcat(w, first + second, third);
      StepsOfVisit(w, n1, n2, n3, v);
      run, n := first + second + third, n3;
    } else {
      LastStays(first, second, Dispatch(Receiving(v.chunks)));
      run, n := first + second, n2;
    }
  }

  /** Clients that can come one after another; a descriptor may come back once it is closed. */
  ghost predicate CanComeInTurn(visits: seq<Visit>, open: set<int>, known: set<Connection>) {
    && (forall i :: 0 <= i < |visits| ==> CanCome(visits[i], open, known) && Terminated(visits[i]))
    && (forall i, j :: 0 <= i < j < |visits| ==> visits[i].client != visits[j].client)
  }

  ghost predicate CanAllVisit(w: World, visits: seq<Visit>) {
    CanComeInTurn(visits, w.foreign + w.streams.Keys, w.conns.Keys + w.gone.Keys)
  }

  lemma FirstVisits(w: World, visits: seq<Visit>)
    requires visits != [] && CanAllVisit(w, visits)
    ensures CanVisit(w, visits[0]) && Terminated(visits[0])
  {
  }

  lemma OthersCanVisit(w: World, n: World, visits: seq<Visit>)
    requires visits != [] && CanAllVisit(w, visits) && Terminated(visits[0]) && NewState(visits[0].init)
    requires Visited(w, n, visits[0])
    ensures CanAllVisit(n, visits[1..])
  {
    var open, known := n.foreign + n.streams.Keys, n.conns.Keys + n.gone.Keys;
    assert known == w.conns.Keys + w.gone.Keys + {visits[0].client};
    forall i | 0 <= i < |visits| - 1
      ensures CanCome(visits[1..][i], open, known) && Terminated(visits[1..][i])
    {
      assert visits[1..][i] == visits[i + 1];
    }
  }

  ghost function AllServed(visits: seq<Visit>): seq<Stream>
    requires forall i :: 0 <= i < |visits| ==> Terminated(visits[i]) && NewState(visits[i].init)
  {
    if visits == [] then [] else [Served(visits[0])] + AllServed(visits[1..])
  }

  lemma Regroup<T>(xs: seq<T>, x: T, ys: seq<T>)
    ensures xs + [x] + ys == xs + ([x] + ys)
  {
  }

  lemma {:induction false} ServeInTurn(w: World, l: Connection, visits: seq<Visit>) returns (run: seq<Event>, n: World)
    requires Quiet(w, l) && CanAllVisit(w, visits)
    ensures IsRun(w, run) && After(w, run) == n && Quiet(n, l)
    ensures n.closed == w.closed + AllServed(visits)
    decreases |visits|
  {
    run, n := [], w;
    if visits != [] {
      FirstVisits(w, visits);
      var first, m := ServeVisit(w, l, visits[0]);
      OthersCanVisit(w, m, visits);
      var rest;
      rest, n := ServeInTurn(m, l, visits[1..]);
      RunConcat(w, first, rest);
      run := first + rest;
      Regroup(w.closed, Served(visits[0]), AllServed(visits[1..]));
    }
  }

  /** Every list of terminated messages, however recv splits them, is echoed by some run of the
      server: the sockets it closes are exactly the ones of these clients, in order, each with
      its message and the echo of it. */
  lemma ServerServesEveryone(foreign: set<int>, l: Connection, init: ConnState, visits: seq<Visit>)
    returns (run: seq<Event>)
    requires (forall fd :: fd in foreign ==> fd >= 0) && l.fd in foreign && NewState(init)
    requires CanComeInTurn(visits, foreign, {l})
    ensures HasRun(foreign, l, init, run)
    ensures After(Started(foreign, l, init), run).closed == AllServed(visits)
  {
    StartedIsQuiet(foreign, l, init);
    var n;
    run, n := ServeInTurn(Started(foreign, l, init), l, visits);
    assert [] + AllServed(visits) == AllServed(visits);
  }

  lemma StartedIsQuiet(foreign: set<int>, l: Connection, init: ConnState)
    requires (forall fd :: fd in foreign ==> fd >= 0) && l.fd in foreign && NewState(init)
    ensures var w := Started(foreign, l, init);
      && Quiet(w, l) && w.closed == []
      && w.foreign + w.streams.Keys == foreign && w.conns.Keys + w.gone.Keys == {l}
  {
    StartedServes(foreign, l, init);
  }

  /** In every state between two rounds, a new client whose message has at most 2047 bytes and
      no NUL gets it back, byte for byte. */
  lemma ShortMessageComesBack(w: World, l: Connection, v: Visit) returns (run: seq<Event>, n: World)
    requires Quiet(w, l) && CanVisit(w, v) && |Message(v)| <= 2047 && 0 !in Message(v)
    ensures IsRun(w, run) && After(w, run) == n && Quiet(n, l)
    ensures n.closed == w.closed + [Stream(Message(v), Message(v))]
  {
    TerminatedIff(Message(v), RECV_BUFFER_LENGTH);
    NulFreeEcho(Message(v), v.init.wbuffer);
    run, n := ServeVisit(w, l, v);
  }

  /** In every state between two rounds, any new client whose message fills the buffer without
      a NUL can make the server read past it. */
  lemma OverrunHappens(w: World, l: Connection, v: Visit) returns (run: seq<Event>)
    requires Quiet(w, l) && CanVisit(w, v) && |Message(v)| == RECV_BUFFER_LENGTH && 0 !in Message(v)
    ensures IsRun(w, run) && EndsInOverrun(w, run) && EndsWith(run, Dispatch(Receiving(v.chunks)))
  {
    TerminatedIff(Message(v), RECV_BUFFER_LENGTH);
    var n;
    run, n := ServeVisit(w, l, v);
    HaltsByOverrun(w, l, run);
  }

  function Sevens(n: nat): (s: seq<byte>)
    ensures |s| == n && 0 !in s
  {
    seq(n, _ => 7)
  }

  /** The input on which the server reads past its buffer: 2048 bytes of 7. */
  lemma OverrunExample(foreign: set<int>, l: Connection, init: ConnState, client: Connection, made: ConnState)
    returns (run: seq<Event>)
    requires (forall fd :: fd in foreign ==> fd >= 0) && l.fd in foreign && NewState(init)
    requires client != l && client.fd >= 0 && client.fd !in foreign && NewState(made)
    ensures CanRun(foreign, l, init, run) && EndsInOverrun(Started(foreign, l, init), run)
    ensures EndsWith(run, Dispatch(Receiving([Sevens(2048)])))
  {
    var w := Started(foreign, l, init);
    StartedIsQuiet(foreign, l, init);
    var input := Sevens(2048);
    var v := Visit(client, made, [input]);
    OneChunk(input);
    run := OverrunHappens(w, l, v);
  }

  lemma OneChunk(input: seq<byte>)
    ensures Flatten([input]) == input
  {
    assert [input][..0] == [];
    assert [] + input == input;
  }

  lemma OneServed(v: Visit)
    requires Terminated(v) && NewState(v.init)
    ensures AllServed([v]) == [Served(v)]
  {
    assert [v][1..] == [];
  }

  /** The input that is not echoed: of 0, 7 the second byte comes back as whatever the send
      buffer held. */
  lemma EchoLossExample(foreign: set<int>, l: Connection, init: ConnState, client: Connection, made: ConnState)
    returns (run: seq<Event>)
    requires (forall fd :: fd in foreign ==> fd >= 0) && l.fd in foreign && NewState(init)
    requires client != l && client.fd >= 0 && client.fd !in foreign
    requires |made.rbuffer| == |made.wbuffer| == 2048
    requires made == ConnState(false, made.event, made.revent, made.rbuffer, 0, made.wbuffer, 0, Unset, Unset, [])
    ensures HasRun(foreign, l, init, run)
    ensures After(Started(foreign, l, init), run).closed == [Stream([0, 7], [0, made.wbuffer[1]])]
  {
    var input: seq<byte> := [0, 7];
    var v := Visit(client, made, [input]);
    OneChunk(input);
    EchoLosesTail(made.wbuffer);
    assert RECV_BUFFER_LENGTH == SEND_BUFFER_LENGTH;
    run := ServerServesEveryone(foreign, l, init, [v]);
    OneServed(v);
  }

  // ---- a descriptor reused inside a batch ----

  /** The case that the batch walk must survive does arise: the kernel reports a client that
      waits for OUT and the listener together; sendCallback closes the client's socket, and
      acceptCallback, in the same batch, gets its descriptor back for a new connection. */
  lemma ReuseInBatch(w: World, l: Connection, c: Connection, d: Connection, init: ConnState)
    returns (run: seq<Event>, n: World)
    requires Quiet(w, l) && c in w.conns && c != l && c.fd >= 0 && Answering(w, c)
    requires d !in w.conns && d !in w.gone && d.fd == c.fd && NewState(init)
    ensures IsRun(w, run) && After(w, run) == n && Quiet(n, l) && |Reports(run)| == 1
    ensures c in n.gone && c !in n.conns && d in n.conns && c.fd in n.connMap && n.connMap[c.fd] == d
  {
    var wait, m := ReportBoth(w, l, c);
    var send, accept;
    send, accept, n := SendThenAccept(m, l, c, d, init);
    run := [wait] + [send, accept];
    RoundOfTwo(w, wait, send, accept);
  }

  lemma RoundOfTwo(w: World, wait: Event, first: Event, second: Event)
    requires wait.WaitReturns? && first.Dispatch? && second.Dispatch?
    requires Enabled(w, wait) && Enabled(Next(w, wait), first) && Enabled(Next(Next(w, wait), first), second)
    ensures var run := [wait] + [first, second];
      && IsRun(w, run) && After(w, run) == Next(Next(Next(w, wait), first), second) && |Reports(run)| == 1
  {
    var rest := [first, second];
    TwoSteps(Next(w, wait), first, second);
    RunCons(w, wait, rest);
    OnlyDispatches(rest);
    assert ([wait] + rest)[1..] == rest;
  }

  ghost function BothReady(l: Connection, c: Connection): seq<EpollEvent> {
    [EpollEvent(c.fd, {OUT}), EpollEvent(l.fd, {IN})]
  }

  lemma BothCanBeReported(w: World, l: Connection, c: Connection)
    requires Quiet(w, l) && c in w.conns && c != l && c.fd >= 0 && Answering(w, c)
    ensures LegalBatch(w, [c.fd, l.fd], BothReady(l, c)) && LookupsHit(w, BothReady(l, c))
  {
    DistinctDescriptors(w, c, l);
    assert LegalBatch(w, [c.fd, l.fd], BothReady(l, c));
    LookupHits(w, [c.fd, l.fd], BothReady(l, c));
  }

  lemma ReventsKeepAnswering(w: World, m: World, c: Connection)
    requires OnlyRevents(w, m) && c in w.conns && Answering(w, c)
    ensures Answering(m, c)
  {
  }

  lemma ReportBoth(w: World, l: Connection, c: Connection) returns (ev: Event, m: World)
    requires Quiet(w, l) && c in w.conns && c != l && c.fd >= 0 && Answering(w, c)
    ensures ev.WaitReturns? && Enabled(w, ev) && Next(w, ev) == m
    ensures Inv(m, l) && !m.halted && l in m.conns && c in m.conns && m.batch == [c, l]
    ensures m.conns.Keys == w.conns.Keys && m.gone == w.gone
    ensures Answering(m, c) && m.conns[c].revent.events == {OUT} && m.conns[l].revent.events == {IN}
  {
    var polled := Polled(w, BothReady(l, c));
    BothCanBeReported(w, l, c);
    ev := WaitReturns([c.fd, l.fd], BothReady(l, c));
    m := Next(w, ev);
    StepKeepsInv(w, l, ev);
    PolledKeepsServing(w, l, BothReady(l, c));
    WaitIsFaithful(polled, [c.fd, l.fd], BothReady(l, c));
    ReventsKeepAnswering(polled, m, c);
    BatchOfTwo(polled, m, l, c);
  }

  lemma BatchOfTwo(w: World, m: World, l: Connection, c: Connection)
    requires w.batch == [] && Faithful(w, m, [c.fd, l.fd], BothReady(l, c), 2)
    requires c.fd in w.connMap && w.connMap[c.fd] == c && l.fd in w.connMap && w.connMap[l.fd] == l
    ensures m.batch == [c, l] && c in m.conns && l in m.conns
    ensures m.conns[c].revent.events == {OUT} && m.conns[l].revent.events == {IN}
  {
    var fds, events := [c.fd, l.fd], BothReady(l, c);
    assert Reported(w, m, m.batch[|w.batch| + 0], fds[0], events[0].events);
    assert Reported(w, m, m.batch[|w.batch| + 1], fds[1], events[1].events);
  }

  lemma SendThenAccept(m: World, l: Connection, c: Connection, d: Connection, init: ConnState)
    returns (send: Event, accept: Event, n: World)
    requires Inv(m, l) && !m.halted && c in m.conns && c != l && c.fd >= 0 && Answering(m, c) && l in m.conns
    requires m.batch == [c, l] && m.conns[c].revent.events == {OUT} && m.conns[l].revent.events == {IN}
    requires d !in m.conns && d !in m.gone && d.fd == c.fd && NewState(init)
    ensures send.Dispatch? && accept.Dispatch? && Enabled(m, send) && Enabled(Next(m, send), accept)
    ensures Next(Next(m, send), accept) == n && Quiet(n, l)
    ensures c in n.gone && c !in n.conns && d in n.conns && c.fd in n.connMap && n.connMap[c.fd] == d
  {
    var m1 := SendFirst(m, l, c);
    DescriptorIsFree(m, m1, l, c, d);
    n := AcceptNext(m1, l, d, init);
    send, accept := Dispatch(NoAnswer), Dispatch(Accepting(d, init));
    Replaced(m, m1, n, l, c, d, init);
  }

  lemma DescriptorIsFree(m: World, n: World, l: Connection, c: Connection, d: Connection)
    requires l in m.conns && c in m.conns && c != l && d !in m.conns && d !in m.gone && d.fd == c.fd
    requires SendEffect(m, n.(batch := m.batch), c)
    ensures l in n.conns && n.conns[l] == m.conns[l] && d !in n.conns && d !in n.gone
    ensures d.fd !in n.streams && n.halted == m.halted
  {
  }

  lemma Replaced(m: World, m1: World, n: World, l: Connection, c: Connection, d: Connection, init: ConnState)
    requires c != l && d !in m.conns && d.fd == c.fd
    requires SendEffect(m, m1.(batch := m.batch), c) && AcceptEffect(m1, n.(batch := m1.batch), l, d, init)
    ensures c in n.gone && c !in n.conns && d in n.conns && c.fd in n.connMap && n.connMap[c.fd] == d
  {
  }

  lemma SendFirst(m: World, l: Connection, c: Connection) returns (n: World)
    requires Inv(m, l) && !m.halted && c in m.conns && c != l && c.fd >= 0 && Answering(m, c) && l in m.conns
    requires m.batch == [c, l] && m.conns[c].revent.events == {OUT}
    ensures Enabled(m, Dispatch(NoAnswer)) && Next(m, Dispatch(NoAnswer)) == n && Inv(n, l)
    ensures n.batch == [l] && SendEffect(m, n.(batch := m.batch), c) && c.fd !in n.foreign
  {
    assert ClientFits(m, c);
    assert IN !in {OUT};
    SendHasEffect(m, l, c);
    DispatchHead(m, c, Bound(SendHandler, c), NoAnswer);
    StepKeepsInv(m, l, Dispatch(NoAnswer));
    n := Next(m, Dispatch(NoAnswer));
    assert n.(batch := m.batch) == SendStep(m, c);
  }

  lemma AcceptNext(m: World, l: Connection, d: Connection, init: ConnState) returns (n: World)
    requires Inv(m, l) && !m.halted && l in m.conns && m.batch == [l] && m.conns[l].revent.events == {IN}
    requires d !in m.conns && d !in m.gone && NewState(init)
    requires d.fd >= 0 && d.fd !in m.foreign && d.fd !in m.streams
    ensures Enabled(m, Dispatch(Accepting(d, init))) && Next(m, Dispatch(Accepting(d, init))) == n
    ensures Quiet(n, l) && AcceptEffect(m, n.(batch := m.batch), l, d, init)
  {
    var o := Accepting(d, init);
    AcceptHasEffect(m, l, d, init);
    DispatchHead(m, l, Bound(AcceptHandler, l), o);
    StepKeepsInv(m, l, Dispatch(o));
    n := Next(m, Dispatch(o));
    assert n.(batch := m.batch) == AcceptStep(m, l, d, init);
  }
}
