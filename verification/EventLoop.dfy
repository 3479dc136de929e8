/** EventLoop.cpp: the dispatch loop, proved to be a run of ReactorModel under whatever the
    kernel does. */
module EventLoops {
  import opened Kernels
  import opened Connections
  import opened ReactorModel
  import opened ReactorInvariant
  import opened ReactorRuns
  import opened ReactorGuarantees
  import opened Epolls
  import opened Callbacks

  /** A result of wait, then dispatches: one round. */
  lemma RoundIsRun(w: World, l: Connection, fds: seq<int>, events: seq<EpollEvent>, run: seq<Event>)
    requires Inv(w, l) && !w.halted && w.batch == [] && LegalBatch(w, fds, events) && LookupsHit(w, events)
    requires IsRun(Waited(Polled(w, events), events, |events|), run) && Reports(run) == []
    ensures var round := [WaitReturns(fds, events)] + run;
      && IsRound(round) && IsRun(w, round)
      && After(w, round) == After(Waited(Polled(w, events), events, |events|), run)
      && |round| + |After(w, round).batch| == 1 + |events|
      && (!After(w, round).halted ==> Inv(After(w, round), l))
  {
    var round := [WaitReturns(fds, events)] + run;
    assert round[1..] == run;
    WaitStarts(w, l, fds, events);
    RunKeepsInv(Waited(Polled(w, events), events, |events|), l, run);
    RunCons(w, WaitReturns(fds, events), run);
    EveryReportIsDispatched(w, round);
    assert [events][1..] == [];
  }

  lemma WaitStarts(w: World, l: Connection, fds: seq<int>, events: seq<EpollEvent>)
    requires Inv(w, l) && !w.halted && w.batch == [] && LegalBatch(w, fds, events) && LookupsHit(w, events)
    ensures var n := Waited(Polled(w, events), events, |events|); !n.halted && Inv(n, l)
  {
    StepKeepsInv(w, l, WaitReturns(fds, events));
  }

  lemma DispatchSnoc(w: World, run: seq<Event>, l: Connection, o: Outcome)
    requires IsRun(w, run) && Inv(After(w, run), l) && Enabled(After(w, run), Dispatch(o)) && Reports(run) == []
    ensures var longer := run + [Dispatch(o)];
      && IsRun(w, longer) && After(w, longer) == Next(After(w, run), Dispatch(o)) && Reports(longer) == []
      && After(w, longer).batch == After(w, run).batch[1..]
      && (!After(w, longer).halted ==> Inv(After(w, longer), l))
  {
    StepKeepsInv(After(w, run), l, Dispatch(o));
    RunSnoc(w, run, Dispatch(o));
    ReportsConcat(run, [Dispatch(o)]);
    assert [Dispatch(o)][1..] == [];
  }

  lemma RoundsConcat(w: World, run: seq<Event>, round: seq<Event>)
    requires IsRun(w, run) && IsRun(After(w, run), round) && IsRound(round)
    ensures IsRun(w, run + round) && After(w, run + round) == After(After(w, run), round)
    ensures |Reports(run + round)| == |Reports(run)| + 1
  {
    RunConcat(w, run, round);
    ReportsConcat(run, round);
  }

  /** EventLoop extends Epoll and adds only `start`. */
  class EventLoop {
    const epoll: Epoll

    constructor (epoll: Epoll)
      ensures this.epoll == epoll
    {
      this.epoll := epoll;
    }

    /** Calling a bound std::function. */
    method Invoke(cb: Callback) returns (defined: bool, ghost o: Outcome)
      requires epoll.OwnBuffers() && !epoll.halted && Defined(epoll.View(), cb)
      modifies cb.conn, cb.conn.rbuffer, cb.conn.wbuffer, epoll.kernel
      modifies epoll`connMap, epoll`conns, epoll`gone, epoll`Repr, epoll`halted
      ensures Legal(old(epoll.View()), cb, o)
      ensures epoll.View() == Invoked(old(epoll.View()), cb, o) && defined == !epoll.halted
      ensures epoll.OwnBuffers() && old(epoll.Repr) <= epoll.Repr && fresh(epoll.Repr - old(epoll.Repr))
    {
      var conn := cb.conn;
      defined := true;
      match cb.handler
      case AcceptHandler =>
        ghost var client, init := AcceptCallback(conn, epoll);
        o := Accepting(client, init);
      case RecvHandler =>
        ghost var chunks;
        defined, chunks := RecvCallback(conn, epoll);
        o := Receiving(chunks);
      case SendHandler =>
        SendCallback(conn, epoll);
        o := NoAnswer;
    }

    /** EventLoop.cpp:16-22. */
    method RunCallback(c: Connection) returns (defined: bool, ghost o: Outcome)
      requires epoll.OwnBuffers() && !epoll.halted && c in epoll.conns
      requires forall cb :: cb in Chosen(c.State()) ==> Defined(epoll.View(), cb) && cb.conn == c
      modifies c, c.rbuffer, c.wbuffer, epoll.kernel
      modifies epoll`connMap, epoll`conns, epoll`gone, epoll`Repr, epoll`halted
      ensures forall cb :: cb in old(Chosen(c.State())) ==> Legal(old(epoll.View()), cb, o)
      ensures epoll.View() == Called(old(epoll.View()), c, o) && defined == !epoll.halted
      ensures epoll.OwnBuffers() && old(epoll.Repr) <= epoll.Repr && fresh(epoll.Repr - old(epoll.Repr))
    {
      ghost var chosen := Chosen(c.State());
      defined, o := true, NoAnswer;
      if IN in c.revent.events {
        assert c.recvCallback == chosen[0];
        defined, o := Invoke(c.recvCallback);
      } else if OUT in c.revent.events {
        assert c.sendCallback == chosen[0];
        defined, o := Invoke(c.sendCallback);
      }
    }

    /** The ready connection at the head of the batch. */
    method DispatchOne(c: Connection) returns (defined: bool, ghost o: Outcome)
      requires epoll.OwnBuffers() && !epoll.halted
      requires epoll.batch != [] && epoll.batch[0] == c && DispatchDefined(epoll.View())
      requires forall cb :: cb in Chosen(c.State()) ==> cb.conn == c
      modifies c, c.rbuffer, c.wbuffer, epoll, epoll.kernel
      ensures Enabled(old(epoll.View()), Dispatch(o))
      ensures epoll.View() == Next(old(epoll.View()), Dispatch(o)) && defined == !epoll.halted
      ensures epoll.OwnBuffers() && old(epoll.Repr) <= epoll.Repr && fresh(epoll.Repr - old(epoll.Repr))
    {
      defined, o := RunCallback(c);
      epoll.PopBatch();
    }

    /** EventLoop.cpp:14-23: one result of wait, walked to its end. The callbacks create and
        delete connections while it is being walked. */
    method DispatchAll(ready: seq<Connection>, ghost l: Connection) returns (defined: bool, ghost run: seq<Event>)
      requires epoll.OwnBuffers() && !epoll.halted && Inv(epoll.View(), l) && epoll.batch == ready
      modifies epoll.Repr
      ensures IsRun(old(epoll.View()), run) && epoll.View() == After(old(epoll.View()), run)
      ensures Reports(run) == []
      ensures epoll.OwnBuffers() && old(epoll.Repr) <= epoll.Repr && fresh(epoll.Repr - old(epoll.Repr))
      ensures defined == !epoll.halted && (defined ==> epoll.batch == [])
    {
      ghost var before := epoll.View();
      defined, run := true, [];
      var i := 0;
      while i < |ready| && defined
        invariant 0 <= i <= |ready| && epoll.batch == ready[i..]
        invariant IsRun(before, run) && epoll.View() == After(before, run) && Reports(run) == []
        invariant epoll.OwnBuffers() && old(epoll.Repr) <= epoll.Repr && fresh(epoll.Repr - old(epoll.Repr))
        invariant defined == !epoll.halted
      {
        defined, run := DispatchNext(ready[i], l, before, run);
        i := i + 1;
      }
    }

    /** One more dispatch of a batch that is being walked since state `before`. */
    method DispatchNext(c: Connection, ghost l: Connection, ghost before: World, ghost run: seq<Event>)
      returns (defined: bool, ghost longer: seq<Event>)
      requires epoll.OwnBuffers() && !epoll.halted && epoll.batch != [] && epoll.batch[0] == c && Inv(before, l)
      requires IsRun(before, run) && epoll.View() == After(before, run) && Reports(run) == []
      modifies epoll.Repr
      ensures IsRun(before, longer) && epoll.View() == After(before, longer) && Reports(longer) == []
      ensures epoll.batch == old(epoll.batch)[1..]
      ensures epoll.OwnBuffers() && old(epoll.Repr) <= epoll.Repr && fresh(epoll.Repr - old(epoll.Repr))
      ensures defined == !epoll.halted
    {
      ghost var w := epoll.View();
      RunKeepsInv(before, l, run);
      ChosenFits(w, l);
      DispatchIsDefined(w, l);
      ghost var o;
      defined, o := DispatchOne(c);
      DispatchSnoc(before, run, l, o);
      longer := run + [Dispatch(o)];
    }

    /** EventLoop.cpp:9-25, `rounds` rounds unless a callback reads past its buffer. The run
        has one result of wait for each round begun, and when no callback failed a dispatch
        for every connection the kernel reported. */
    method Start(rounds: nat, ghost l: Connection) returns (defined: bool, ghost run: seq<Event>)
      requires epoll.OwnBuffers() && !epoll.halted && Inv(epoll.View(), l) && epoll.batch == []
      modifies epoll.Repr
      ensures IsRun(old(epoll.View()), run) && epoll.View() == After(old(epoll.View()), run)
      ensures epoll.kernel.reports == old(epoll.kernel.reports) + Reports(run)
      ensures |Reports(run)| <= rounds && (defined ==> |Reports(run)| == rounds)
      ensures defined ==> |run| == rounds + EventCount(Reports(run))
      ensures defined <==> !EndsInOverrun(old(epoll.View()), run)
      ensures defined ==> Inv(epoll.View(), l) && epoll.batch == []
    {
      ghost var before := epoll.View();
      defined, run := Rounds(rounds, l);
      RunReports(before, run);
      EveryReportIsDispatched(before, run);
      HaltsByOverrun(before, l, run);
      assert epoll.View().reports == before.reports + Reports(run);
    }

    method Rounds(rounds: nat, ghost l: Connection) returns (defined: bool, ghost run: seq<Event>)
      requires epoll.OwnBuffers() && !epoll.halted && Inv(epoll.View(), l) && epoll.batch == []
      modifies epoll.Repr
      ensures IsRun(old(epoll.View()), run) && epoll.View() == After(old(epoll.View()), run)
      ensures |Reports(run)| <= rounds && (defined ==> |Reports(run)| == rounds)
      ensures defined == !epoll.halted
      ensures defined ==> Inv(epoll.View(), l) && epoll.batch == []
    {
      ghost var before := epoll.View();
      defined, run := true, [];
      var round := 0;
      while round < rounds && defined
        invariant |Reports(run)| == round <= rounds
        invariant IsRun(before, run) && epoll.View() == After(before, run)
        invariant epoll.OwnBuffers() && old(epoll.Repr) <= epoll.Repr && fresh(epoll.Repr - old(epoll.Repr))
        invariant defined == !epoll.halted
        invariant defined ==> Inv(epoll.View(), l) && epoll.batch == []
      {
        ghost var more;
        defined, more := Round(l);
        RoundsConcat(before, run, more);
        run := run + more;
        round := round + 1;
      }
    }

    /** EventLoop.cpp:13. */
    method WaitReady(ghost l: Connection)
      returns (ready: seq<Connection>, ghost fds: seq<int>, ghost events: seq<EpollEvent>)
      requires epoll.OwnBuffers() && !epoll.halted && Inv(epoll.View(), l) && epoll.batch == []
      modifies epoll.Repr
      ensures LegalBatch(old(epoll.View()), fds, events) && LookupsHit(old(epoll.View()), events)
      ensures epoll.View() == Waited(Polled(old(epoll.View()), events), events, |events|) && epoll.batch == ready
      ensures !epoll.halted && Inv(epoll.View(), l)
      ensures epoll.OwnBuffers() && epoll.Repr == old(epoll.Repr)
    {
      ghost var before := epoll.View();
      ready, fds, events := epoll.Wait();
      WaitStarts(before, l, fds, events);
    }

    /** One round: a result of wait, and a dispatch for each connection in it unless one of
        them fails. */
    method Round(ghost l: Connection) returns (defined: bool, ghost run: seq<Event>)
      requires epoll.OwnBuffers() && !epoll.halted && Inv(epoll.View(), l) && epoll.batch == []
      modifies epoll.Repr
      ensures IsRun(old(epoll.View()), run) && epoll.View() == After(old(epoll.View()), run)
      ensures IsRound(run) && |run| <= 1 + |run[0].events| && (defined ==> |run| == 1 + |run[0].events|)
      ensures epoll.OwnBuffers() && old(epoll.Repr) <= epoll.Repr && fresh(epoll.Repr - old(epoll.Repr))
      ensures defined == !epoll.halted
      ensures defined ==> Inv(epoll.View(), l) && epoll.batch == []
    {
      ghost var before := epoll.View();
      var ready;
      ghost var fds, events;
      ready, fds, events := WaitReady(l);
      defined, run := DispatchAll(ready, l);
      RoundIsRun(before, l, fds, events, run);
      run := [WaitReturns(fds, events)] + run;
    }
  }
}
