/** The other direction of the refinement: whatever the FIFO queue with N running places can
    do, the pool can be scheduled to show, N tasks at a time included. */
module PoolRealization {
  import opened PoolModel
  import opened PoolInvariant
  import opened PoolGuarantees
  import opened PoolRefinement

  /** No lock held, no call under way, every worker running a task or about to look for one. */
  ghost predicate Calm(s: Pool) {
    && Inv(s) && !s.halted && !s.quit && s.owner == None && s.destructor == NotCalled
    && s.producers != []
    && (forall p :: 0 <= p < |s.producers| ==> s.producers[p] == Idle)
    && (forall w :: 0 <= w < |s.workers| ==> s.workers[w].WantLock? || s.workers[w].Running?)
  }

  /** Tasks are named in the order they are submitted, from `next` on; the queue does not care
      what they are called. */
  ghost predicate Numbered(run: seq<SpecAction>, next: Task)
    decreases |run|
  {
    run == [] ||
    if run[0].Submit? then run[0].task == next && Numbered(run[1..], next + 1) else Numbered(run[1..], next)
  }

  lemma {:induction false} VisibleConcat(s: Pool, run: seq<Action>, more: seq<Action>)
    requires IsRun(s, run) && IsRun(After(s, run), more)
    ensures IsRun(s, run + more) && After(s, run + more) == After(After(s, run), more)
    ensures VisibleRun(s, run + more) == VisibleRun(s, run) + VisibleRun(After(s, run), more)
    decreases |run|
  {
    RunConcat(s, run, more);
    if run == [] {
      assert run + more == more;
    } else {
      assert (run + more)[1..] == run[1..] + more;
      VisibleConcat(Next(s, run[0]), run[1..], more);
    }
  }

  /** One action after another, each with what it shows. */
  lemma Then(s: Pool, run: seq<Action>, a: Action)
    requires IsRun(s, run) && Enabled(After(s, run), a)
    ensures IsRun(s, run + [a]) && After(s, run + [a]) == Next(After(s, run), a)
    ensures VisibleRun(s, run + [a]) == VisibleRun(s, run) + Visible(After(s, run), a)
  {
    var end := After(s, run);
    assert [a][1..] == [];
    assert VisibleRun(end, [a]) == Visible(end, a);
    VisibleConcat(s, run, [a]);
  }

  /** One whole call of enqueue. */
  lemma CalmSubmit(s: Pool) returns (run: seq<Action>)
    requires Calm(s)
    ensures IsRun(s, run) && VisibleRun(s, run) == [Submit(s.nextTask)]
    ensures Calm(After(s, run)) && After(s, run).nextTask == s.nextTask + 1
  {
    var t := s.nextTask;
    var step := ProducerStep(0, None);
    assert Asleep !in s.workers;
    run := [Call(0), step];
    ReachesQuitCheck(s);
    var n := s.(owner := Some(Producer(0)), tasks := s.tasks + [t], accepted := s.accepted + [t],
                nextTask := t + 1, producers := s.producers[0 := Emplaced(t)]);
    assert s.producers[0 := Entered(t)][0 := Emplaced(t)] == n.producers;
    Then(s, run, step); run := run + [step];
    assert After(s, run) == n;
    Then(s, run, step); run := run + [step];
    assert After(s, run) == n.(producers := n.producers[0 := Notified(t)]);
    Then(s, run, step); run := run + [step];
    RunKeepsInv(s, run);
  }

  /** The packaged task is made, and mtx locked. */
  lemma ReachesQuitCheck(s: Pool)
    requires Calm(s)
    ensures var run := [Call(0), ProducerStep(0, None)];
      && IsRun(s, run) && VisibleRun(s, run) == []
      && After(s, run) == s.(owner := Some(Producer(0)), nextTask := s.nextTask + 1,
                             producers := s.producers[0 := Entered(s.nextTask)])
  {
    var run: seq<Action> := [];
    Then(s, run, Call(0)); run := run + [Call(0)];
    assert s.producers[0 := Calling(s.nextTask)][0 := Entered(s.nextTask)] == s.producers[0 := Entered(s.nextTask)];
    Then(s, run, ProducerStep(0, None));
    assert run + [ProducerStep(0, None)] == [Call(0), ProducerStep(0, None)];
  }

  /** One round of a worker up to the point where it runs the head of the queue. */
  lemma CalmStart(s: Pool, w: nat) returns (run: seq<Action>)
    requires Calm(s) && s.tasks != [] && w < |s.workers| && s.workers[w].WantLock?
    ensures IsRun(s, run) && VisibleRun(s, run) == [Start]
    ensures Calm(After(s, run)) && After(s, run).nextTask == s.nextTask
  {
    var step := WorkerStep(w);
    var t := s.tasks[0];
    var m := s.(owner := Some(Worker(w)), workers := s.workers[w := Ready]);
    ReachesReady(s, w);
    var n := m.(tasks := s.tasks[1..], dequeued := s.dequeued + [t], workers := s.workers[w := Popped(t)]);
    run := [step, step];
    assert m.workers[w := Popping][w := Popped(t)] == n.workers;
    Then(s, run, step); run := run + [step];
    Then(s, run, step); run := run + [step];
    assert After(s, run) == n;
    assert n.workers[w := Running(t)] == s.workers[w := Running(t)];
    Then(s, run, step); run := run + [step];
    RunKeepsInv(s, run);
  }

  /** Locking, and the check of the wait's predicate. */
  lemma ReachesReady(s: Pool, w: nat)
    requires Calm(s) && s.tasks != [] && w < |s.workers| && s.workers[w].WantLock?
    ensures var run := [WorkerStep(w), WorkerStep(w)];
      && IsRun(s, run) && VisibleRun(s, run) == []
      && After(s, run) == s.(owner := Some(Worker(w)), workers := s.workers[w := Ready])
  {
    var step := WorkerStep(w);
    var run: seq<Action> := [];
    Then(s, run, step); run := run + [step];
    assert s.workers[w := Locked][w := Ready] == s.workers[w := Ready];
    Then(s, run, step);
    assert run + [step] == [step, step];
  }

  lemma CalmFinish(s: Pool, w: nat) returns (run: seq<Action>)
    requires Calm(s) && w < |s.workers| && s.workers[w].Running?
    ensures IsRun(s, run) && VisibleRun(s, run) == [Finish(s.workers[w].task)]
    ensures Calm(After(s, run)) && After(s, run).nextTask == s.nextTask
  {
    var step := WorkerStep(w);
    run := [];
    Then(s, run, step); run := run + [step];
    RunKeepsInv(s, run);
  }

  /** With fewer tasks running than workers, one worker is free. */
  lemma FreeWorker(s: Pool) returns (w: nat)
    requires Calm(s) && |HandSet(s.workers)| < |s.workers|
    ensures w < |s.workers| && s.workers[w].WantLock?
  {
    if forall v :: 0 <= v < |s.workers| ==> s.workers[v].Running? {
      AllRunning(s);
    }
    w :| 0 <= w < |s.workers| && !s.workers[w].Running?;
  }

  /** Workers run different tasks, so N busy workers are N tasks. */
  lemma AllRunning(s: Pool)
    requires Inv(s) && forall v :: 0 <= v < |s.workers| ==> s.workers[v].Running?
    ensures |HandSet(s.workers)| == |s.workers|
  {
    forall v, w | 0 <= v < w < |s.workers|
      ensures s.workers[v].task != s.workers[w].task
    {
      if s.workers[v].task == s.workers[w].task { NeverRunTwice(s, v, w, s.workers[v].task); }
    }
    DistinctHands(s.workers);
  }

  lemma {:induction false} DistinctHands(workers: seq<WorkerPc>)
    requires forall v :: 0 <= v < |workers| ==> workers[v].Running?
    requires forall v, w :: 0 <= v < w < |workers| ==> workers[v].task != workers[w].task
    ensures |HandSet(workers)| == |workers|
  {
    if workers == [] {
      assert HandSet(workers) == {};
    } else {
      var init := workers[..|workers| - 1];
      var pc := workers[|workers| - 1];
      DistinctHands(init);
      assert forall v :: 0 <= v < |init| ==> init[v] == workers[v];
      assert HandSet(workers) == HandSet(init) + {pc.task};
      assert pc.task !in HandSet(init);
    }
  }

  lemma RunningWorker(s: Pool, t: Task) returns (w: nat)
    requires Calm(s) && t in HandSet(s.workers)
    ensures w < |s.workers| && s.workers[w] == Running(t)
  {
    w :| 0 <= w < |s.workers| && IsHolding(s.workers[w]) == 1 && s.workers[w].task == t;
  }

  lemma CalmStep(s: Pool, a: SpecAction) returns (run: seq<Action>)
    requires Calm(s) && SpecEnabled(View(s), |s.workers|, a)
    requires a.Submit? ==> a.task == s.nextTask
    ensures IsRun(s, run) && VisibleRun(s, run) == [a] && Calm(After(s, run))
    ensures After(s, run).nextTask == if a.Submit? then s.nextTask + 1 else s.nextTask
  {
    match a
    case Submit(t) => run := CalmSubmit(s);
    case Start =>
      var w := FreeWorker(s);
      run := CalmStart(s, w);
    case Finish(t) =>
      var w := RunningWorker(s, t);
      run := CalmFinish(s, w);
  }

  /** Every run of the queue is shown by a run of the pool. */
  lemma {:induction false} CalmRun(s: Pool, spec: seq<SpecAction>) returns (run: seq<Action>)
    requires Calm(s) && IsSpecRun(View(s), |s.workers|, spec) && Numbered(spec, s.nextTask)
    ensures IsRun(s, run) && VisibleRun(s, run) == spec
    decreases |spec|
  {
    run := [];
    if spec != [] {
      var first := CalmStep(s, spec[0]);
      FirstShown(s, first, spec);
      var rest := CalmRun(After(s, first), spec[1..]);
      VisibleConcat(s, first, rest);
      run := first + rest;
      assert spec == [spec[0]] + spec[1..];
    }
  }

  lemma FirstShown(s: Pool, run: seq<Action>, spec: seq<SpecAction>)
    requires Inv(s) && IsRun(s, run) && spec != [] && VisibleRun(s, run) == [spec[0]]
    requires IsSpecRun(View(s), |s.workers|, spec)
    ensures IsSpecRun(View(After(s, run)), |After(s, run).workers|, spec[1..])
  {
    RunRefines(s, run);
    WorkersStay(s, run);
    assert [spec[0]][1..] == [];
  }

  lemma {:induction false} WorkersStay(s: Pool, run: seq<Action>)
    requires IsRun(s, run)
    ensures |After(s, run).workers| == |s.workers|
    decreases |run|
  {
    if run != [] {
      WorkersStay(Next(s, run[0]), run[1..]);
    }
  }

  /** A pool of N workers, with anybody to call it, can show every run of the FIFO queue with
      N running places: the refinement loses nothing. */
  lemma PoolRealizesQueue(threads: nat, callers: nat, spec: seq<SpecAction>) returns (run: seq<Action>)
    requires threads >= 1 && callers >= 1
    requires IsSpecRun(Spec([], {}, []), threads, spec) && Numbered(spec, 0)
    ensures IsRun(Initial(threads, callers), run) && VisibleRun(Initial(threads, callers), run) == spec
  {
    var s := Initial(threads, callers);
    InitialInv(threads, callers);
    assert HandSet(s.workers) == {};
    run := CalmRun(s, spec);
  }
}
