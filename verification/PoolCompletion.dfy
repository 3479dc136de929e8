/** What the pool is called for does happen: some schedule finishes every call and every
    shutdown, from every state that any interleaving can reach. */
module PoolCompletion {
  import opened PoolModel
  import opened PoolInvariant
  import opened PoolGuarantees
  import opened PoolProgress

  // ---- a call of enqueue ----

  /** The pool's own steps up to the point where it is at rest. */
  lemma {:induction false} RunToRest(s: Pool) returns (run: seq<Action>)
    requires Inv(s) && !s.halted && s.destructor == NotCalled
    ensures IsRun(s, run) && RunCost(s, run) == 0
    ensures Inv(After(s, run)) && !After(s, run).halted && AtRest(After(s, run))
    decreases Work(s)
  {
    if OwnStepEnabled(s) {
      var a :| Enabled(s, a) && Cost(s, a) == 0;
      StepKeepsInv(s, a);
      StepCostsWork(s, a);
      HaltsOnlyLate(s, a);
      var rest := RunToRest(Next(s, a));
      run := [a] + rest;
      assert run[1..] == rest;
    } else {
      StuckOnlyAtRest(s);
      run := [];
    }
  }

  /** A call made while the pool is open keeps its task until it is accepted. */
  lemma {:induction false} CallKeepsTask(s: Pool, p: nat, t: Task, run: seq<Action>)
    requires Inv(s) && !s.halted && s.destructor == NotCalled && IsRun(s, run) && CallDestructor !in run
    requires p < |s.producers| && (Pending(s.producers[p], t) || t in s.accepted)
    ensures p < |After(s, run).producers|
    ensures Pending(After(s, run).producers[p], t) || t in After(s, run).accepted
    decreases |run|
  {
    if run != [] {
      assert run[0] in run;
      StepKeepsInv(s, run[0]);
      HaltsOnlyLate(s, run[0]);
      CallKeepsTask(Next(s, run[0]), p, t, run[1..]);
    }
  }

  /** From every reachable state of a pool whose destructor is not called, any idle caller can
      call enqueue and some schedule of the pool's own steps gives back its future, with the
      task completed and every other accepted task too. */
  lemma AnyCallCompletes(s: Pool, p: nat) returns (run: seq<Action>)
    requires Reachable(s) && !s.halted && s.destructor == NotCalled
    requires p < |s.producers| && s.producers[p] == Idle
    ensures run != [] && run[0] == Call(p) && IsRun(s, run)
    ensures RunCost(Next(s, Call(p)), run[1..]) == 0
    ensures var end := After(s, run);
      && !end.halted && AtRest(end)
      && s.nextTask in end.completed && s.nextTask in end.returned
  {
    ReachableInv(s);
    var t := s.nextTask;
    var n := Next(s, Call(p));
    StepKeepsInv(s, Call(p));
    var rest := RunToRest(n);
    OwnRunCallsNobody(n, rest);
    CallKeepsTask(n, p, t, rest);
    var end := After(n, rest);
    assert !ReturnPending(end, t);
    assert t in multiset(end.accepted);
    assert t in multiset(end.completed);
    run := [Call(p)] + rest;
    assert run[1..] == rest;
  }

  // ---- shutdown ----

  /** No caller is past the lock once quit is set, so nobody is about to end the process. */
  ghost predicate NobodyLate(s: Pool) {
    s.quit ==> forall p :: 0 <= p < |s.producers| ==> !s.producers[p].Entered?
  }

  lemma StaysTimely(s: Pool, a: Action)
    requires Inv(s) && NobodyLate(s) && Enabled(s, a)
    requires a.ProducerStep? ==> !s.producers[a.p].Calling?
    ensures !Next(s, a).halted && NobodyLate(Next(s, a))
  {
    HaltsOnlyLate(s, a);
    if a.DestructorStep? && s.destructor == Inside {
      assert forall p :: 0 <= p < |s.producers| ==> !ProducerOwns(s.producers[p]);
    }
  }

  /** Between the call of the destructor and its return some thread inside the pool, or in its
      critical section, can step. */
  lemma ShutdownCanStep(s: Pool) returns (a: Action)
    requires Inv(s) && !s.halted && s.destructor != NotCalled && s.destructor != Destroyed
    ensures Enabled(s, a) && Cost(s, a) == 0
    ensures a.ProducerStep? ==> !s.producers[a.p].Calling?
  {
    if s.owner.Some? {
      a := OwnerCanStep(s);
    } else if w :| 0 <= w < |s.workers| && WorkerCanStep(s, w) {
      a := WorkerStep(w);
    } else {
      a := DestructorStep;
      if s.destructor.Joining? && s.destructor.next < |s.workers| {
        assert WorkerFits(s, s.workers[s.destructor.next]);
        assert !WorkerCanStep(s, s.destructor.next);
      }
    }
  }

  lemma {:induction false} RunToDestroyed(s: Pool) returns (run: seq<Action>)
    requires Inv(s) && !s.halted && s.destructor != NotCalled && NobodyLate(s)
    ensures IsRun(s, run) && RunCost(s, run) == 0
    ensures After(s, run).destructor == Destroyed && !After(s, run).halted
    decreases Work(s)
  {
    run := [];
    if s.destructor != Destroyed {
      var a := ShutdownCanStep(s);
      StepKeepsInv(s, a);
      StepCostsWork(s, a);
      StaysTimely(s, a);
      var rest := RunToDestroyed(Next(s, a));
      run := [a] + rest;
      assert run[1..] == rest;
    }
  }

  /** From every reachable state of a pool that nobody has destroyed, some schedule takes a
      call of the destructor to its return, with every accepted task completed. */
  lemma DestructorReturns(s: Pool) returns (run: seq<Action>)
    requires Reachable(s) && !s.halted && s.destructor == NotCalled
    ensures run != [] && run[0] == CallDestructor && IsRun(s, run)
    ensures RunCost(Next(s, CallDestructor), run[1..]) == 0
    ensures var end := After(s, run);
      && end.destructor == Destroyed && end.quit && !end.halted
      && end.tasks == [] && multiset(end.completed) == multiset(end.accepted)
      && s.accepted <= end.accepted
  {
    ReachableInv(s);
    StepKeepsInv(s, CallDestructor);
    var n := Next(s, CallDestructor);
    var rest := RunToDestroyed(n);
    run := [CallDestructor] + rest;
    assert run[1..] == rest;
    AcceptedGrows(s, run);
    RunKeepsInv(s, run);
    DestroyedIsDrained(After(s, run));
  }

  // ---- spurious wake-ups ----

  /** A worker that wakes with nothing to do goes back to sleep, and the pool is as before. */
  lemma SpuriousWakeupIsHarmless(s: Pool, w: nat)
    requires !s.halted && s.owner == None && !s.quit && s.tasks == []
    requires w < |s.workers| && s.workers[w] == Asleep
    ensures var run := [Spurious(w), WorkerStep(w), WorkerStep(w)];
      IsRun(s, run) && After(s, run) == s
  {
    var wake, step := Spurious(w), WorkerStep(w);
    assert [] + [wake] == [wake] && [wake] + [step] == [wake, step] && [wake, step] + [step] == [wake, step, step];
    RunSnoc(s, [], wake);
    RunSnoc(s, [wake], step);
    RunSnoc(s, [wake, step], step);
    assert s.workers[w := Woken][w := Locked][w := Asleep] == s.workers;
  }
}
