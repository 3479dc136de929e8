/** What follows for the echo server over every run: nothing is touched after deletion, each
    client is served once, descriptors are neither lost nor closed twice, and the echo is
    what was sent. */
module ReactorGuarantees {
  import opened Kernels
  import opened CStrings
  import opened Connections
  import opened ReactorModel
  import opened ReactorInvariant

  /** The server's first state satisfies the invariant. */
  lemma StartedServes(foreign: set<int>, l: Connection, init: ConnState)
    requires (forall fd :: fd in foreign ==> fd >= 0) && l.fd in foreign && NewState(init)
    ensures Inv(Started(foreign, l, init), l)
  {
  }

  /** The dispatched recv filled the buffer with bytes none of which is NUL. */
  ghost predicate Overruns(w: World, ev: Event) {
    && ev.Dispatch? && ev.outcome.Receiving?
    && Flatten(ev.outcome.chunks) != []
    && |Flatten(ev.outcome.chunks)| == RECV_BUFFER_LENGTH
    && 0 !in Flatten(ev.outcome.chunks)
    && w.batch != [] && w.batch[0] in w.conns
    && Chosen(w.conns[w.batch[0]]) == [Bound(RecvHandler, w.batch[0])]
  }

  /** One step of the event loop: a dispatch leaves every other connection alone, and the
      invariant holds again unless the step read past the receive buffer, which it does
      exactly when a message fills the buffer without a NUL. */
  lemma StepKeepsInv(w: World, l: Connection, ev: Event)
    requires Inv(w, l) && Enabled(w, ev)
    ensures Next(w, ev).halted <==> Overruns(w, ev)
    ensures !Next(w, ev).halted ==> Inv(Next(w, ev), l)
    ensures ev.Dispatch? ==> Untouched(w, Next(w, ev), w.batch[0]) && Next(w, ev).batch == w.batch[1..]
  {
    match ev
    case WaitReturns(fds, events) =>
      PolledKeepsServing(w, l, events);
      WaitKeepsInv(Polled(w, events), l, fds, events);
      WaitIsFaithful(Polled(w, events), fds, events);
    case Dispatch(o) => DispatchKeepsInv(w, l, o);
  }

  lemma DispatchKeepsInv(w: World, l: Connection, o: Outcome)
    requires Inv(w, l) && Enabled(w, Dispatch(o))
    ensures Next(w, Dispatch(o)).halted <==> Overruns(w, Dispatch(o))
    ensures !Next(w, Dispatch(o)).halted ==> Inv(Next(w, Dispatch(o)), l)
    ensures Untouched(w, Next(w, Dispatch(o)), w.batch[0]) && Next(w, Dispatch(o)).batch == w.batch[1..]
  {
    var n := Next(w, Dispatch(o));
    ChosenFits(w, l);
    if Chosen(w.conns[w.batch[0]]) == [] {
      BatchDoesNotMatter(w, n, l);
    } else {
      CallKeepsServing(w, n, l, o);
    }
    RestOfBatchFits(w, n);
  }

  lemma CallKeepsServing(w: World, n: World, l: Connection, o: Outcome)
    requires Inv(w, l) && Enabled(w, Dispatch(o)) && n == Next(w, Dispatch(o))
    requires Chosen(w.conns[w.batch[0]]) != []
    ensures Untouched(w, n, w.batch[0])
    ensures n.halted <==> Overruns(w, Dispatch(o))
    ensures !n.halted ==> Serving(n, l)
  {
    ChosenFits(w, l);
    var cb := Chosen(w.conns[w.batch[0]])[0];
    assert cb in Chosen(w.conns[w.batch[0]]);
    InvokeKeepsServing(w, n, l, cb, o);
    OverrunsMeans(w, cb, o);
  }

  lemma OverrunsMeans(w: World, cb: Callback, o: Outcome)
    requires w.batch != [] && w.batch[0] in w.conns && Chosen(w.conns[w.batch[0]]) != []
    requires Chosen(w.conns[w.batch[0]])[0] == cb && cb.Bound? && cb.conn == w.batch[0]
    requires Defined(w, cb) && Legal(w, cb, o)
    ensures Overruns(w, Dispatch(o)) <==>
              cb.handler == RecvHandler && |Flatten(o.chunks)| == RECV_BUFFER_LENGTH && 0 !in Flatten(o.chunks)
  {
    assert Chosen(w.conns[w.batch[0]]) == [cb];
  }

  lemma InvokeKeepsServing(w: World, n: World, l: Connection, cb: Callback, o: Outcome)
    requires Serving(w, l) && !w.halted && cb.Bound? && CallbackFits(w, l, cb.conn, cb) && Defined(w, cb)
      && Legal(w, cb, o)
    requires n == Invoked(w, cb, o).(batch := n.batch)
    ensures Untouched(w, n, cb.conn)
    ensures n.halted <==>
            cb.handler == RecvHandler && |Flatten(o.chunks)| == RECV_BUFFER_LENGTH && 0 !in Flatten(o.chunks)
    ensures !n.halted ==> Serving(n, l)
  {
    var m := Invoked(w, cb, o);
    InvokeIsLocal(w, l, cb, o);
    HaltsWhenOverrun(w, l, cb, o);
    if !m.halted { BatchDoesNotMatter(m, n, l); }
  }

  lemma BatchDoesNotMatter(m: World, n: World, l: Connection)
    requires Serving(m, l) && n == m.(batch := n.batch)
    ensures Serving(n, l)
  {
  }

  lemma HaltsWhenOverrun(w: World, l: Connection, cb: Callback, o: Outcome)
    requires Serving(w, l) && !w.halted && cb.Bound? && CallbackFits(w, l, cb.conn, cb) && Defined(w, cb)
      && Legal(w, cb, o)
    ensures Invoked(w, cb, o).halted <==>
              cb.handler == RecvHandler && |Flatten(o.chunks)| == RECV_BUFFER_LENGTH && 0 !in Flatten(o.chunks)
  {
    match cb.handler
    case AcceptHandler => AcceptHasEffect(w, l, o.client, o.init);
    case RecvHandler =>
      assert ClientFits(w, cb.conn);
      RecvHasEffect(w, l, cb.conn, o.chunks);
      TerminatedIff(Flatten(o.chunks), RECV_BUFFER_LENGTH);
    case SendHandler => SendHasEffect(w, l, cb.conn);
  }

  lemma RestOfBatchFits(w: World, n: World)
    requires BatchFits(w) && w.batch != [] && Untouched(w, n, w.batch[0]) && n.batch == w.batch[1..]
    ensures BatchFits(n)
  {
    forall d | d in n.batch
      ensures IsReady(n, d)
    {
      assert d in w.batch && IsReady(w, d);
      var i :| 0 <= i < |n.batch| && n.batch[i] == d;
      assert w.batch[i + 1] == d;
    }
  }

  /** In every state the server can reach, whatever the kernel does, the invariant holds as
      long as no message overran the receive buffer. */
  lemma {:induction false} RunKeepsInv(w: World, l: Connection, run: seq<Event>)
    requires Inv(w, l) && IsRun(w, run)
    ensures !After(w, run).halted ==> Inv(After(w, run), l)
    decreases |run|
  {
    if run != [] {
      StepKeepsInv(w, l, run[0]);
      if !Next(w, run[0]).halted {
        RunKeepsInv(Next(w, run[0]), l, run[1..]);
      }
    }
  }

  /** The run's last event reads past the receive buffer. */
  ghost predicate EndsInOverrun(w: World, run: seq<Event>) {
    && run != [] && IsRun(w, run[..|run| - 1])
    && Overruns(After(w, run[..|run| - 1]), run[|run| - 1])
  }

  /** The only way the server stops is a message that fills the receive buffer without a NUL,
      and such a message does stop it. */
  lemma {:induction false} HaltsByOverrun(w: World, l: Connection, run: seq<Event>)
    requires Inv(w, l) && !w.halted && IsRun(w, run)
    ensures After(w, run).halted <==> EndsInOverrun(w, run)
    decreases |run|
  {
    if run != [] {
      var n := Next(w, run[0]);
      StepKeepsInv(w, l, run[0]);
      if n.halted {
        assert run[1..] == [];
        assert run[..0] == [];
      } else {
        HaltsByOverrun(n, l, run[1..]);
        OverrunCons(w, run);
      }
    }
  }

  lemma OverrunCons(w: World, run: seq<Event>)
    requires run != [] && Enabled(w, run[0]) && IsRun(Next(w, run[0]), run[1..])
    requires !Overruns(w, run[0])
    ensures EndsInOverrun(w, run) <==> EndsInOverrun(Next(w, run[0]), run[1..])
  {
    if |run| > 1 {
      var init := run[..|run| - 1];
      assert init[1..] == run[1..][..|run| - 2];
    } else {
      assert run[..0] == [];
    }
  }

  /** A server built on listening socket `l`, and a run of its event loop. */
  ghost predicate CanRun(foreign: set<int>, l: Connection, init: ConnState, run: seq<Event>) {
    && (forall fd :: fd in foreign ==> fd >= 0) && l.fd in foreign && NewState(init)
    && IsRun(Started(foreign, l, init), run)
  }

  /** A run that never read past a receive buffer. */
  ghost predicate HasRun(foreign: set<int>, l: Connection, init: ConnState, run: seq<Event>) {
    CanRun(foreign, l, init, run) && !After(Started(foreign, l, init), run).halted
  }

  lemma HasRunInv(foreign: set<int>, l: Connection, init: ConnState, run: seq<Event>)
    requires HasRun(foreign, l, init, run)
    ensures Inv(After(Started(foreign, l, init), run), l)
  {
    StartedServes(foreign, l, init);
    RunKeepsInv(Started(foreign, l, init), l, run);
  }

  /** At every wait the three views agree: for descriptors other than -1, the kernel's
      interest list, the non-null entries of connMap, and the existing connections; and with
      them the masks. The listener is one of them and keeps its mask. */
  lemma AgreementAtEveryWait(foreign: set<int>, l: Connection, init: ConnState, run: seq<Event>)
    requires HasRun(foreign, l, init, run)
    ensures var w := After(Started(foreign, l, init), run);
      && (forall fd :: fd in w.interest <==> fd >= 0 && fd in w.connMap && w.connMap[fd] != null)
      && (forall fd :: fd in w.interest <==> exists c :: c in w.conns && c.fd == fd && fd >= 0)
      && (forall c :: c in w.conns && c.fd >= 0 ==>
            && w.conns[c].inEpoll
            && c.fd in w.connMap && w.connMap[c.fd] == c
            && c.fd in w.interest && w.interest[c.fd] == w.conns[c].event)
      && l in w.conns && l.fd >= 0 && w.conns[l].event.events == {IN, ET}
  {
    HasRunInv(foreign, l, init, run);
    var w := After(Started(foreign, l, init), run);
    forall fd | fd in w.interest
      ensures exists c :: c in w.conns && c.fd == fd && fd >= 0
    {
      assert w.connMap[fd] in w.conns;
    }
  }

  // ---- the batch under descriptor reuse ----

  /** While the event loop walks a batch, every connection it has not dispatched yet exists,
      is the one connMap has for its descriptor, and has all its fields as wait left them,
      revent included: also when an earlier callback deleted a connection and a later accept
      got its descriptor. */
  lemma {:induction false} BatchIsSafe(w: World, l: Connection, run: seq<Event>)
    requires Inv(w, l) && IsRun(w, run) && |run| <= |w.batch| && forall ev :: ev in run ==> ev.Dispatch?
    ensures var n := After(w, run);
      && n.batch == w.batch[|run|..]
      && forall c :: c in n.batch ==>
           && c in w.conns && c in n.conns && n.conns[c] == w.conns[c]
           && c.fd in n.connMap && n.connMap[c.fd] == c
    decreases |run|
  {
    if run == [] {
      assert forall c :: c in w.batch ==> IsReady(w, c);
    } else {
      var m := Next(w, run[0]);
      OneDispatchIsSafe(w, l, run[0]);
      if m.halted {
        assert run[1..] == [];
      } else {
        StepKeepsInv(w, l, run[0]);
        BatchIsSafe(m, l, run[1..]);
        assert m.batch[|run| - 1..] == w.batch[|run|..];
      }
    }
  }

  lemma OneDispatchIsSafe(w: World, l: Connection, ev: Event)
    requires Inv(w, l) && Enabled(w, ev) && ev.Dispatch?
    ensures var n := Next(w, ev);
      && n.batch == w.batch[1..]
      && forall c :: c in n.batch ==>
           && c in w.conns && c in n.conns && n.conns[c] == w.conns[c]
           && c.fd in n.connMap && n.connMap[c.fd] == c
  {
    StepKeepsInv(w, l, ev);
    forall c | c in Next(w, ev).batch
      ensures IsReady(w, c) && c != w.batch[0]
    {
      InTail(w, c);
    }
  }

  lemma InTail(w: World, c: Connection)
    requires BatchFits(w) && w.batch != [] && c in w.batch[1..]
    ensures IsReady(w, c) && c != w.batch[0]
  {
  }

  // ---- dispatch ----

  /** In every state of every run: a connection that can be reported readable has a receive
      callback bound to itself, one that can be reported writable a send callback; and only
      the listener accepts. */
  lemma CallbacksAreBound(foreign: set<int>, l: Connection, init: ConnState, run: seq<Event>, c: Connection)
    requires HasRun(foreign, l, init, run) && c in After(Started(foreign, l, init), run).conns
    ensures var s := After(Started(foreign, l, init), run).conns[c];
      && (IN in s.event.events ==> s.recvCallback == Bound(if c == l then AcceptHandler else RecvHandler, c))
      && (OUT in s.event.events ==> c != l && s.sendCallback == Bound(SendHandler, c))
  {
    HasRunInv(foreign, l, init, run);
  }

  /** Which callback a dispatch runs, and what it does. The flags ERR and HUP make no
      difference. A connection reported readable accepts if it is the listener, and otherwise
      receives; one that is writable and not readable is answered, closed and deleted; for any
      other report nothing happens. */
  lemma DispatchRuns(w: World, l: Connection, o: Outcome)
    requires Inv(w, l) && Enabled(w, Dispatch(o))
    ensures var c := w.batch[0];
      var flags := w.conns[c].revent.events;
      var n := Next(w, Dispatch(o)).(batch := w.batch);
      && (IN in flags && c == l ==> o.Accepting? && AcceptEffect(w, n, l, o.client, o.init))
      && (IN in flags && c != l ==> o.Receiving? && RecvEffect(w, n, c, Flatten(o.chunks)))
      && (IN !in flags && OUT in flags ==> c != l && SendEffect(w, n, c))
      && (IN !in flags && OUT !in flags ==> n == w)
  {
    var c := w.batch[0];
    ChosenFits(w, l);
    ChosenIs(w, l);
    var chosen := Chosen(w.conns[c]);
    if chosen != [] {
      assert chosen[0] in chosen;
      CallHasEffect(w, l, c, chosen[0], o);
    }
  }

  /** The callback that the mask of the next ready connection selects. */
  lemma ChosenIs(w: World, l: Connection)
    requires Inv(w, l) && w.batch != []
    ensures var c := w.batch[0];
      && c in w.conns
      && var flags := w.conns[c].revent.events;
      && (OUT in flags ==> c != l)
      && Chosen(w.conns[c]) == if IN in flags then [Bound(if c == l then AcceptHandler else RecvHandler, c)]
                               else if OUT in flags then [Bound(SendHandler, c)]
                               else []
  {
    var c := w.batch[0];
    assert IsReady(w, c);
    if c != l {
      assert ClientFits(w, c);
    }
  }

  /** In any state at all: a report with IN runs the receive callback, also when OUT is in it;
      the send callback runs only for a report with OUT and not IN. */
  lemma ReadableGoesFirst(w: World, c: Connection, o: Outcome)
    requires c in w.conns && forall cb :: cb in Chosen(w.conns[c]) ==> Defined(w, cb) && Legal(w, cb, o)
    ensures var s := w.conns[c];
      && (IN in s.revent.events ==>
            && Defined(w, s.recvCallback) && Legal(w, s.recvCallback, o)
            && Called(w, c, o) == Invoked(w, s.recvCallback, o))
      && (OUT in s.revent.events && IN !in s.revent.events ==>
            && Defined(w, s.sendCallback) && Legal(w, s.sendCallback, o)
            && Called(w, c, o) == Invoked(w, s.sendCallback, o))
  {
    if IN in w.conns[c].revent.events {
      assert w.conns[c].recvCallback in Chosen(w.conns[c]);
    } else if OUT in w.conns[c].revent.events {
      assert w.conns[c].sendCallback in Chosen(w.conns[c]);
    }
  }

  lemma CallHasEffect(w: World, l: Connection, c: Connection, cb: Callback, o: Outcome)
    requires Serving(w, l) && !w.halted && cb.Bound? && CallbackFits(w, l, c, cb) && Defined(w, cb) && Legal(w, cb, o)
    ensures cb.handler == AcceptHandler ==> o.Accepting? && AcceptEffect(w, Invoked(w, cb, o), l, o.client, o.init)
    ensures cb.handler == RecvHandler ==> o.Receiving? && RecvEffect(w, Invoked(w, cb, o), c, Flatten(o.chunks))
    ensures cb.handler == SendHandler ==> SendEffect(w, Invoked(w, cb, o), c)
  {
    match cb.handler
    case AcceptHandler => AcceptHasEffect(w, l, o.client, o.init);
    case RecvHandler =>
      assert ClientFits(w, c);
      RecvHasEffect(w, l, c, o.chunks);
    case SendHandler => SendHasEffect(w, l, c);
  }

  /** The kernel may report any registered descriptors at once, with any masks inside the
      registered ones plus ERR and HUP, if and only if they are at most 16384. */
  lemma WhatCanBeReported(w: World, l: Connection, fds: seq<int>, masks: seq<Mask>)
    requires Inv(w, l) && !w.halted && w.batch == [] && |masks| == |fds|
    requires forall i, j :: 0 <= i < j < |fds| ==> fds[i] != fds[j]
    requires forall i :: 0 <= i < |fds| ==> fds[i] in w.interest && masks[i] <= w.interest[fds[i]].events + {ERR, HUP}
    ensures var events := seq(|fds|, i requires 0 <= i < |fds| => EpollEvent(fds[i], masks[i]));
      Enabled(w, WaitReturns(fds, events)) <==> |fds| <= 16384
  {
    var events := seq(|fds|, i requires 0 <= i < |fds| => EpollEvent(fds[i], masks[i]));
    if |fds| <= 16384 {
      assert forall i :: 0 <= i < |fds| ==> w.interest[fds[i]].dataFd == fds[i];
      assert LegalBatch(w, fds, events);
      LookupHits(w, fds, events);
    }
  }

  /** The event loop never blocks on its own state: with nothing left to dispatch it can
      wait, and otherwise the kernel has an answer with which the next callback runs. `spare`
      stands for the connection that a refused accept would make. */
  lemma NeverStuck(w: World, l: Connection, spare: Connection, init: ConnState) returns (ev: Event)
    requires Inv(w, l) && !w.halted
    requires spare !in w.conns && spare !in w.gone && spare.fd == -1 && NewState(init)
    ensures Enabled(w, ev) && (ev.Dispatch? <==> w.batch != [])
  {
    if w.batch == [] {
      ev := WaitReturns([], []);
    } else {
      DispatchIsDefined(w, l);
      var chosen := Chosen(w.conns[w.batch[0]]);
      if chosen != [] {
        assert Defined(w, chosen[0]);
      }
      var h := if chosen == [] then SendHandler else chosen[0].handler;
      ev := Dispatch(if h == AcceptHandler then Accepting(spare, init)
                     else if h == RecvHandler then Receiving([])
                     else NoAnswer);
    }
  }

  // ---- lifecycle ----

  /** Receive, then send, then deletion: in every state of every run, the callbacks a client
      has had, and its mask. */
  lemma Lifecycle(foreign: set<int>, l: Connection, init: ConnState, run: seq<Event>, c: Connection)
    requires HasRun(foreign, l, init, run) && c != l
    ensures var w := After(Started(foreign, l, init), run);
      && (c in w.conns ==>
            && w.conns[c].calls < [RecvHandler, SendHandler]
            && (w.conns[c].calls == [] <==> w.conns[c].event.events == {IN, ET})
            && (w.conns[c].calls == [RecvHandler] <==> w.conns[c].event.events == {OUT}))
      && (c in w.gone ==> c !in w.conns && c !in w.batch && w.gone[c] == [RecvHandler, SendHandler])
  {
    HasRunInv(foreign, l, init, run);
    assert IN in {IN, ET} && IN !in {OUT};
  }

  /** The connection exists in both states, has lost none of its callbacks, and its send
      buffer is as it was. */
  ghost predicate StillThere(w: World, n: World, c: Connection)
    requires c in w.conns
  {
    c in n.conns && w.conns[c].calls <= n.conns[c].calls && n.conns[c].wbuffer == w.conns[c].wbuffer
  }

  /** Along a run a connection only moves forward: its callbacks are added to, never dropped,
      nothing is written to its send buffer before it is deleted, and once deleted it stays
      deleted. */
  lemma {:induction false} NeverBackwards(w: World, l: Connection, c: Connection, run: seq<Event>)
    requires Inv(w, l) && IsRun(w, run) && !After(w, run).halted
    ensures c in w.conns ==> StillThere(w, After(w, run), c) || c in After(w, run).gone
    ensures c in w.gone ==> c in After(w, run).gone && c !in After(w, run).conns
    decreases |run|
  {
    if run != [] {
      var m := Next(w, run[0]);
      StepKeepsInv(w, l, run[0]);
      HaltsForGood(m, run[1..]);
      OneStepForwards(w, l, c, run[0]);
      NeverBackwards(m, l, c, run[1..]);
    }
  }

  lemma HaltsForGood(w: World, run: seq<Event>)
    requires IsRun(w, run)
    ensures w.halted ==> After(w, run).halted
  {
  }

  lemma OneStepForwards(w: World, l: Connection, c: Connection, ev: Event)
    requires Inv(w, l) && Enabled(w, ev) && !Next(w, ev).halted
    ensures c in w.conns ==> StillThere(w, Next(w, ev), c) || c in Next(w, ev).gone
    ensures c in w.gone ==> c in Next(w, ev).gone
  {
    match ev
    case WaitReturns(fds, events) =>
      PolledKeepsServing(w, l, events);
      WaitIsFaithful(Polled(w, events), fds, events);
    case Dispatch(o) =>
      ChosenFits(w, l);
      var chosen := Chosen(w.conns[w.batch[0]]);
      if chosen != [] {
        var cb := chosen[0];
        assert cb in chosen && CallbackFits(w, l, w.batch[0], cb);
        InvokeForwards(w, l, c, cb, o);
      }
  }

  lemma InvokeForwards(w: World, l: Connection, c: Connection, cb: Callback, o: Outcome)
    requires Serving(w, l) && !w.halted && cb.Bound? && CallbackFits(w, l, cb.conn, cb) && Defined(w, cb)
      && Legal(w, cb, o)
    ensures Forwards(w, Invoked(w, cb, o), c)
  {
    var n := Invoked(w, cb, o);
    CallHasEffect(w, l, cb.conn, cb, o);
    match cb.handler
    case AcceptHandler => AcceptForwards(w, n, l, o.client, o.init, c);
    case RecvHandler => RecvForwards(w, n, cb.conn, Flatten(o.chunks), c);
    case SendHandler => SendForwards(w, n, cb.conn, c);
  }

  ghost predicate Forwards(w: World, n: World, c: Connection) {
    && (c in w.conns ==> StillThere(w, n, c) || c in n.gone)
    && (c in w.gone ==> c in n.gone)
  }

  lemma AcceptForwards(w: World, n: World, l: Connection, client: Connection, init: ConnState, c: Connection)
    requires AcceptEffect(w, n, l, client, init)
    ensures Forwards(w, n, c)
  {
  }

  lemma RecvForwards(w: World, n: World, d: Connection, input: seq<byte>, c: Connection)
    requires RecvEffect(w, n, d, input) && w.conns[d].calls == []
    ensures Forwards(w, n, c)
  {
  }

  lemma SendForwards(w: World, n: World, d: Connection, c: Connection)
    requires SendEffect(w, n, d)
    ensures Forwards(w, n, c)
  {
  }

  // ---- descriptors ----

  ghost function Clients(w: World, l: Connection): set<Connection> {
    set c | c in w.conns && c != l && c.fd >= 0
  }

  lemma {:induction false} DescriptorCount(cs: set<Connection>)
    requires forall c, d :: c in cs && d in cs && c != d ==> c.fd != d.fd
    ensures |set c | c in cs :: c.fd| == |cs|
  {
    if cs != {} {
      var c :| c in cs;
      var rest := cs - {c};
      DescriptorCount(rest);
      assert (set d | d in cs :: d.fd) == (set d | d in rest :: d.fd) + {c.fd};
    }
  }

  /** No descriptor is lost, shared or closed twice: the open sockets are exactly the
      descriptors of the live clients, one each; every deletion closed one; and successful
      accepts minus deletions are the live clients. */
  lemma DescriptorsAreOwned(w: World, l: Connection)
    requires Inv(w, l)
    ensures forall c, d :: c in w.conns && d in w.conns && c != d && c.fd >= 0 ==> c.fd != d.fd
    ensures w.streams.Keys == set c | c in Clients(w, l) :: c.fd
    ensures |w.closed| == |w.gone|
    ensures w.accepts - |w.gone| == |Clients(w, l)|
  {
    var fds := set c | c in Clients(w, l) :: c.fd;
    forall fd | fd in w.streams
      ensures fd in fds
    {
      var c := w.connMap[fd];
      assert c in Clients(w, l) && c.fd == fd;
    }
    forall fd | fd in fds
      ensures fd in w.streams
    {
      var c :| c in Clients(w, l) && c.fd == fd;
      assert ClientFits(w, c);
    }
    assert w.streams.Keys == fds;
    assert |w.streams.Keys| == |w.streams|;
    DescriptorCount(Clients(w, l));
  }

  // ---- the echo ----

  /** What was written is what was received up to and including its first NUL, and behind it
      the bytes that the send buffer held before. */
  ghost predicate EchoedOver(st: Stream, before: seq<byte>) {
    && |st.output| == |st.input| <= |before|
    && Certain(st.input) <= st.output
    && forall i :: CLength(st.input) < i < |st.input| ==> st.output[i] == before[i]
  }

  lemma EchoIsOver(input: seq<byte>, before: seq<byte>)
    requires |input| <= |before| && 0 in Filled(input, |before|)
    ensures EchoedOver(Stream(input, Echo(input, before)), before)
  {
    EchoKeepsCertain(input, before);
    EchoTail(input, before);
  }

  /** As many bytes written as received, right up to and including the first NUL, behind it
      those of some send buffer, and all of them right when no byte but the last is NUL. */
  ghost predicate WellEchoed(st: Stream) {
    && |st.output| == |st.input| <= RECV_BUFFER_LENGTH
    && Certain(st.input) <= st.output
    && (exists before :: |before| == SEND_BUFFER_LENGTH && EchoedOver(st, before))
    && ((forall i :: 0 <= i < |st.input| - 1 ==> st.input[i] != 0) ==> st.output == st.input)
  }

  lemma EchoedIsWellEchoed(st: Stream)
    requires Echoed(st)
    ensures WellEchoed(st)
  {
    var before :| |before| == SEND_BUFFER_LENGTH && st.output == Echo(st.input, before);
    EchoKeepsCertain(st.input, before);
    EchoIsOver(st.input, before);
    if forall i :: 0 <= i < |st.input| - 1 ==> st.input[i] != 0 {
      assert Certain(st.input) == st.input;
    }
  }

  lemma SessionsWellEchoed(w: World, l: Connection)
    requires Inv(w, l)
    ensures forall st :: st in w.closed ==> WellEchoed(st)
  {
    forall st | st in w.closed
      ensures WellEchoed(st)
    {
      EchoedIsWellEchoed(st);
    }
  }

  lemma OverrunClosesNothing(w: World, l: Connection, ev: Event)
    requires Inv(w, l) && Enabled(w, ev) && Overruns(w, ev)
    ensures Next(w, ev).closed == w.closed
  {
    ChosenFits(w, l);
    var chosen := Chosen(w.conns[w.batch[0]]);
    assert chosen[0] in chosen;
    assert ClientFits(w, w.batch[0]);
    RecvHasEffect(w, l, w.batch[0], ev.outcome.chunks);
  }

  lemma {:induction false} RunEchoesWell(w: World, l: Connection, run: seq<Event>)
    requires Inv(w, l) && !w.halted && IsRun(w, run)
    ensures forall st :: st in After(w, run).closed ==> WellEchoed(st)
    decreases |run|
  {
    if run == [] {
      SessionsWellEchoed(w, l);
    } else {
      StepKeepsInv(w, l, run[0]);
      if Next(w, run[0]).halted {
        assert run[1..] == [];
        OverrunClosesNothing(w, l, run[0]);
        SessionsWellEchoed(w, l);
      } else {
        RunEchoesWell(Next(w, run[0]), l, run[1..]);
      }
    }
  }

  /** End to end, for every session finished in any run, however recv split the message. */
  lemma SessionsAreEchoed(foreign: set<int>, l: Connection, init: ConnState, run: seq<Event>, st: Stream)
    requires CanRun(foreign, l, init, run) && st in After(Started(foreign, l, init), run).closed
    ensures WellEchoed(st)
  {
    StartedServes(foreign, l, init);
    RunEchoesWell(Started(foreign, l, init), l, run);
  }

  // ---- each client's own echo ----

  lemma CallKeepsClosed(w: World, cb: Callback, o: Outcome)
    requires Defined(w, cb) && Legal(w, cb, o)
    ensures w.closed <= Invoked(w, cb, o).closed
  {
  }

  lemma {:induction false} WaitKeepsClosed(w: World, events: seq<EpollEvent>, n: nat)
    requires LookupsHit(w, events) && n <= |events|
    ensures Waited(w, events, n).closed == w.closed
  {
    if n > 0 {
      WaitKeepsClosed(w, events, n - 1);
    }
  }

  lemma StepKeepsClosed(w: World, ev: Event)
    requires Enabled(w, ev)
    ensures w.closed <= Next(w, ev).closed
  {
    match ev
    case WaitReturns(_, events) => WaitKeepsClosed(Polled(w, events), events, |events|);
    case Dispatch(o) =>
      var chosen := Chosen(w.conns[w.batch[0]]);
      if chosen != [] {
        assert chosen[0] in chosen;
        CallKeepsClosed(w, chosen[0], o);
      }
  }

  /** The record of closed sockets only grows. */
  lemma {:induction false} RunKeepsClosed(w: World, run: seq<Event>)
    requires IsRun(w, run)
    ensures w.closed <= After(w, run).closed
    decreases |run|
  {
    if run != [] {
      StepKeepsClosed(w, run[0]);
      RunKeepsClosed(Next(w, run[0]), run[1..]);
    }
  }

  lemma StepEchoes(w: World, l: Connection, c: Connection, ev: Event) returns (st: Stream)
    requires Inv(w, l) && Enabled(w, ev) && !Next(w, ev).halted
    requires c in w.conns && c in Next(w, ev).gone
    ensures st in Next(w, ev).closed && EchoedOver(st, w.conns[c].wbuffer)
  {
    assert c !in w.gone;
    match ev
    case WaitReturns(fds, events) =>
      PolledKeepsServing(w, l, events);
      WaitIsFaithful(Polled(w, events), fds, events);
      st := Stream([], []);
    case Dispatch(o) =>
      DispatchRuns(w, l, o);
      st := SendEchoes(w, Next(w, ev).(batch := w.batch), w.batch[0], c);
  }

  lemma SendEchoes(w: World, n: World, d: Connection, c: Connection) returns (st: Stream)
    requires n.gone != w.gone ==> SendEffect(w, n, d)
    requires c in w.conns && c !in w.gone && c in n.gone
    ensures st in n.closed && EchoedOver(st, w.conns[c].wbuffer)
  {
    var input := w.streams[c.fd].input;
    EchoIsOver(input, w.conns[c].wbuffer);
    st := Stream(input, Echo(input, w.conns[c].wbuffer));
    assert n.closed[|w.closed|] == st;
  }

  /** Every client that exists at some time and is deleted later has been echoed: on record is a
      closed socket that wrote back its message, over the send buffer this client had. */
  lemma {:induction false} GoneIsEchoed(w: World, l: Connection, c: Connection, run: seq<Event>) returns (st: Stream)
    requires Inv(w, l) && IsRun(w, run) && !After(w, run).halted && c in w.conns && c in After(w, run).gone
    ensures st in After(w, run).closed && EchoedOver(st, w.conns[c].wbuffer)
    decreases |run|
  {
    var n := Next(w, run[0]);
    StepKeepsInv(w, l, run[0]);
    HaltsForGood(n, run[1..]);
    OneStepForwards(w, l, c, run[0]);
    if c in n.gone {
      st := StepEchoes(w, l, c, run[0]);
      RunKeepsClosed(n, run[1..]);
    } else {
      st := GoneIsEchoed(n, l, c, run[1..]);
    }
  }
}
