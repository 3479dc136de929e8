/** Putting runs of the reactor together, and what a run says about the calls of wait. */
module ReactorRuns {
  import opened Kernels
  import opened Connections
  import opened ReactorModel

  lemma {:induction false} RunConcat(w: World, run: seq<Event>, more: seq<Event>)
    requires IsRun(w, run) && IsRun(After(w, run), more)
    ensures IsRun(w, run + more) && After(w, run + more) == After(After(w, run), more)
    decreases |run|
  {
    if run == [] {
      assert run + more == more;
    } else {
      assert (run + more)[1..] == run[1..] + more;
      RunConcat(Next(w, run[0]), run[1..], more);
    }
  }

  lemma RunSnoc(w: World, run: seq<Event>, ev: Event)
    requires IsRun(w, run) && Enabled(After(w, run), ev)
    ensures IsRun(w, run + [ev]) && After(w, run + [ev]) == Next(After(w, run), ev)
  {
    assert [ev][1..] == [];
    RunConcat(w, run, [ev]);
  }

  lemma TwoSteps(w: World, first: Event, second: Event)
    requires Enabled(w, first) && Enabled(Next(w, first), second)
    ensures IsRun(w, [first, second]) && After(w, [first, second]) == Next(Next(w, first), second)
  {
    assert [first, second] == [first] + [second];
    assert [second][1..] == [];
    RunCons(w, first, [second]);
  }

  lemma RunCons(w: World, ev: Event, run: seq<Event>)
    requires Enabled(w, ev) && IsRun(Next(w, ev), run)
    ensures IsRun(w, [ev] + run) && After(w, [ev] + run) == After(Next(w, ev), run)
  {
    assert ([ev] + run)[1..] == run;
  }

  // ---- rounds ----

  /** What wait was told during a run, call by call. */
  function Reports(run: seq<Event>): seq<seq<EpollEvent>> {
    if run == [] then []
    else (if run[0].WaitReturns? then [run[0].events] else []) + Reports(run[1..])
  }

  function EventCount(reports: seq<seq<EpollEvent>>): nat {
    if reports == [] then 0 else |reports[0]| + EventCount(reports[1..])
  }

  /** One round of the loop: a result of wait, then dispatches only. */
  ghost predicate IsRound(run: seq<Event>) {
    run != [] && run[0].WaitReturns? && Reports(run[1..]) == []
  }

  lemma {:induction false} ReportsConcat(run: seq<Event>, more: seq<Event>)
    ensures Reports(run + more) == Reports(run) + Reports(more)
  {
    if run == [] {
      assert run + more == more;
    } else {
      assert (run + more)[1..] == run[1..] + more;
      ReportsConcat(run[1..], more);
    }
  }

  lemma {:induction false} OnlyDispatches(run: seq<Event>)
    ensures Reports(run) == [] <==> forall i :: 0 <= i < |run| ==> run[i].Dispatch?
  {
    if run != [] {
      OnlyDispatches(run[1..]);
      if run[0].Dispatch? {
        assert forall i :: 1 <= i < |run| ==> run[i] == run[1..][i - 1];
        assert forall i :: 0 <= i < |run[1..]| ==> run[1..][i] == run[i + 1];
      }
    }
  }

  lemma StepReports(w: World, ev: Event)
    requires Enabled(w, ev)
    ensures Next(w, ev).reports == w.reports + (if ev.WaitReturns? then [ev.events] else [])
  {
    match ev
    case WaitReturns(_, events) => WaitedReports(Polled(w, events), events, |events|);
    case Dispatch(o) =>
      var chosen := Chosen(w.conns[w.batch[0]]);
      if chosen != [] {
        assert chosen[0] in chosen;
        CallReportsNothing(w, chosen[0], o);
      }
  }

  lemma CallReportsNothing(w: World, cb: Callback, o: Outcome)
    requires Defined(w, cb) && Legal(w, cb, o)
    ensures Invoked(w, cb, o).reports == w.reports
  {
  }

  lemma {:induction false} WaitedReports(w: World, events: seq<EpollEvent>, n: nat)
    requires LookupsHit(w, events) && n <= |events|
    ensures Waited(w, events, n).reports == w.reports
  {
    if n > 0 {
      WaitedReports(w, events, n - 1);
    }
  }

  lemma ReportsCons(reports: seq<seq<EpollEvent>>, run: seq<Event>)
    requires run != []
    ensures reports + (if run[0].WaitReturns? then [run[0].events] else []) + Reports(run[1..])
         == reports + Reports(run)
  {
  }

  /** A run is told what epoll_wait returned, no more and no less. */
  lemma {:induction false} RunReports(w: World, run: seq<Event>)
    requires IsRun(w, run)
    ensures After(w, run).reports == w.reports + Reports(run)
    decreases |run|
  {
    if run != [] {
      StepReports(w, run[0]);
      RunReports(Next(w, run[0]), run[1..]);
      ReportsCons(w.reports, run);
    }
  }

  // ---- every report is dispatched ----

  lemma {:induction false} WaitedBatch(w: World, events: seq<EpollEvent>, n: nat)
    requires LookupsHit(w, events) && n <= |events|
    ensures |Waited(w, events, n).batch| == |w.batch| + n
  {
    if n > 0 {
      WaitedBatch(w, events, n - 1);
    }
  }

  lemma StepBatch(w: World, ev: Event)
    requires Enabled(w, ev)
    ensures ev.WaitReturns? ==> w.batch == [] && |Next(w, ev).batch| == |ev.events|
    ensures ev.Dispatch? ==> w.batch != [] && Next(w, ev).batch == w.batch[1..]
  {
    if ev.WaitReturns? { WaitedBatch(Polled(w, ev.events), ev.events, |ev.events|); }
  }

  /** Every ready connection that the kernel reports is dispatched once, and nothing else is:
      over any run, dispatches and what is still waiting are what was waiting and what has
      been reported. */
  lemma {:induction false} EveryReportIsDispatched(w: World, run: seq<Event>)
    requires IsRun(w, run)
    ensures |run| - |Reports(run)| + |After(w, run).batch| == |w.batch| + EventCount(Reports(run))
    decreases |run|
  {
    if run != [] {
      var n := Next(w, run[0]);
      StepBatch(w, run[0]);
      EveryReportIsDispatched(n, run[1..]);
      if run[0].WaitReturns? {
        assert ([run[0].events] + Reports(run[1..]))[1..] == Reports(run[1..]);
      } else {
        assert Reports(run) == Reports(run[1..]);
      }
    }
  }
}
