/** The pool never gets stuck and never spins: runs are bounded by the work in them, a pool
    that cannot move has nothing left to do, and shutdown always ends. */
module PoolProgress {
  import opened Totals
  import opened PoolModel
  import opened PoolInvariant
  import opened PoolGuarantees

  // ---- no lost wake-up ----

  /** In every reachable state, spurious wake-ups included: while some worker sleeps, queued
      tasks have as many awake workers coming for them (one fewer only between an emplace and
      its notify_one); and when nobody comes for a queued task, all N workers are busy with
      tasks of their own. */
  lemma QueuedTaskIsAwaited(s: Pool)
    requires Reachable(s)
    ensures AsleepCount(s) > 0 ==> HeadingCount(s) + (if NotifyPending(s) then 1 else 0) >= |s.tasks|
    ensures s.tasks != [] && HeadingCount(s) == 0 && !NotifyPending(s) ==>
              forall w :: 0 <= w < |s.workers| ==> IsHolding(s.workers[w]) == 1
  {
    ReachableInv(s);
    if s.tasks != [] && HeadingCount(s) == 0 && !NotifyPending(s) {
      forall w | 0 <= w < |s.workers|
        ensures IsHolding(s.workers[w]) == 1
      {
        TotalAtLeast(s.workers, w, IsHeading);
        TotalAtLeast(s.workers, w, IsAsleep);
        assert WorkerFits(s, s.workers[w]);
      }
    }
  }

  // ---- a pool that cannot move is done ----

  /** The next step of the thread inside enqueue, with a sleeper for notify_one if any. */
  ghost function ProducerAction(s: Pool, p: nat): Action {
    if p < |s.producers| && s.producers[p].Emplaced? && Asleep in s.workers
    then var w :| 0 <= w < |s.workers| && s.workers[w] == Asleep; ProducerStep(p, Some(w))
    else ProducerStep(p, None)
  }

  lemma OwnerCanStep(s: Pool) returns (a: Action)
    requires MutualExclusion(s) && CountersFit(s) && !s.halted && s.owner.Some?
    ensures Enabled(s, a) && Cost(s, a) == 0
    ensures a.ProducerStep? ==> ProducerOwns(s.producers[a.p])
  {
    match s.owner.value
    case Worker(w) =>
      a := WorkerStep(w);
      assert WorkerFits(s, s.workers[w]);
      assert WorkerOwns(s.workers[w]);
    case Producer(p) =>
      a := ProducerAction(s, p);
      assert ProducerOwns(s.producers[p]);
    case Destructor => a := DestructorStep;
  }

  /** Every queued task has been completed and every thread is where it waits for a caller:
      workers asleep or gone, no call of enqueue under way, the destructor not called or done. */
  ghost predicate AtRest(s: Pool) {
    && s.tasks == []
    && s.owner == None
    && (forall w :: 0 <= w < |s.workers| ==> s.workers[w] == Asleep || s.workers[w] == Exited)
    && (forall p :: 0 <= p < |s.producers| ==> s.producers[p] == Idle)
    && (s.destructor == NotCalled || s.destructor == Destroyed)
    && multiset(s.completed) == multiset(s.accepted)
  }

  /** The pool's own steps: neither a call from outside nor a spurious wake-up. */
  ghost predicate OwnStepEnabled(s: Pool) {
    exists a :: Enabled(s, a) && Cost(s, a) == 0
  }

  lemma UnlockedThreadCanStep(s: Pool, a: Action)
    requires !s.halted && Enabled(s, a) && Cost(s, a) == 0
    ensures OwnStepEnabled(s)
  {
  }

  /** No deadlock: a pool whose own threads cannot step is at rest, all accepted work done. */
  lemma StuckOnlyAtRest(s: Pool)
    requires Inv(s) && !s.halted && !OwnStepEnabled(s)
    ensures AtRest(s)
  {
    if s.owner.Some? {
      var a := OwnerCanStep(s);
      assert false;
    }
    forall w | 0 <= w < |s.workers|
      ensures s.workers[w] == Asleep || s.workers[w] == Exited
    {
      assert !Enabled(s, WorkerStep(w)) by {
        if Enabled(s, WorkerStep(w)) { UnlockedThreadCanStep(s, WorkerStep(w)); }
      }
      assert WorkerFits(s, s.workers[w]);
    }
    forall p | 0 <= p < |s.producers|
      ensures s.producers[p] == Idle
    {
      assert !Enabled(s, ProducerStep(p, None)) by {
        if Enabled(s, ProducerStep(p, None)) { UnlockedThreadCanStep(s, ProducerStep(p, None)); }
      }
      assert !ProducerOwns(s.producers[p]);
    }
    assert !Enabled(s, DestructorStep) by {
      if Enabled(s, DestructorStep) { UnlockedThreadCanStep(s, DestructorStep); }
    }
    assert WorkerFits(s, s.workers[0]);
    if s.destructor.Joining? && s.destructor.next < |s.workers| {
      assert WorkerFits(s, s.workers[s.destructor.next]);
    }
    NothingQueuedAtRest(s);
  }

  lemma NothingQueuedAtRest(s: Pool)
    requires Inv(s) && s.owner == None
    requires forall w :: 0 <= w < |s.workers| ==> s.workers[w] == Asleep || s.workers[w] == Exited
    ensures s.tasks == [] && multiset(s.completed) == multiset(s.accepted)
  {
    TotalNone(s.workers, IsHeading);
    TotalAtLeast(s.workers, 0, IsAsleep);
    assert WorkerFits(s, s.workers[0]);
    forall t: Task
      ensures multiset(s.completed)[t] == multiset(s.accepted)[t]
    {
      TotalNone(s.workers, Holding(t));
      CountConcat(s.dequeued, s.tasks, t);
      CountIsMultiplicity(s.completed, t);
      CountIsMultiplicity(s.accepted, t);
    }
  }

  // ---- bounded runs ----

  function WorkerRank(pc: WorkerPc): nat {
    match pc
    case Popped(_) => 8
    case Running(_) => 7
    case WantLock => 5
    case Woken => 5
    case Locked => 4
    case Ready => 3
    case Popping => 2
    case Leaving => 1
    case Asleep => 0
    case Exited => 0
  }

  function ProducerRank(pc: ProducerPc): nat {
    match pc
    case Calling(_) => 16
    case Entered(_) => 15
    case Emplaced(_) => 7
    case Notified(_) => 1
    case Idle => 0
  }

  function DestructorRank(threads: nat, pc: DestructorPc): nat {
    match pc
    case NotCalled => 0
    case WaitLock => 6 * threads + 5
    case Inside => 6 * threads + 4
    case QuitSet => 6 * threads + 3
    case AllNotified => threads + 2
    case Joining(k) => if k <= threads then threads - k + 1 else 0
    case Destroyed => 0
  }

  /** Steps the pool can still take on its own. A queued task is worth one round of a worker. */
  function Work(s: Pool): nat {
    7 * |s.tasks|
    + Total(s.workers, WorkerRank)
    + Total(s.producers, ProducerRank)
    + DestructorRank(|s.workers|, s.destructor)
    + (if s.halted then 0 else 1)
  }

  /** What a step from outside brings in: a call of enqueue, a spurious wake-up, or the
      destruction of a pool with N workers. */
  function Cost(s: Pool, a: Action): nat {
    match a
    case Spurious(_) => 6
    case Call(_) => 17
    case CallDestructor => 6 * |s.workers| + 6
    case _ => 0
  }

  function RunCost(s: Pool, run: seq<Action>): nat
    requires IsRun(s, run)
    decreases |run|
  {
    if run == [] then 0 else Cost(s, run[0]) + RunCost(Next(s, run[0]), run[1..])
  }

  lemma {:induction false} WakeAllRank(workers: seq<WorkerPc>)
    ensures Total(WakeAll(workers), WorkerRank) <= Total(workers, WorkerRank) + 5 * |workers|
  {
    if workers != [] {
      var last := |workers| - 1;
      assert WakeAll(workers)[..last] == WakeAll(workers[..last]);
      WakeAllRank(workers[..last]);
    }
  }

  lemma WorkerStepCostsWork(s: Pool, w: nat)
    requires WorkerCanStep(s, w)
    ensures Work(WorkerNext(s, w)) < Work(s)
  {
    TotalUpdate(s.workers, w, WorkerNext(s, w).workers[w], WorkerRank);
  }

  lemma ProducerStepCostsWork(s: Pool, p: nat, wake: Option<nat>)
    requires !s.halted && ProducerCanStep(s, p, wake)
    ensures Work(ProducerNext(s, p, wake)) < Work(s)
  {
    TotalUpdate(s.producers, p, ProducerNext(s, p, wake).producers[p], ProducerRank);
    if wake.Some? {
      TotalUpdate(s.workers, wake.value, Woken, WorkerRank);
    }
  }

  lemma DestructorStepCostsWork(s: Pool)
    requires CountersFit(s) && DestructorCanStep(s)
    ensures Work(DestructorNext(s)) < Work(s)
  {
    WakeAllRank(s.workers);
  }

  /** Every step uses up work that was there or that the step itself brought in. */
  lemma StepCostsWork(s: Pool, a: Action)
    requires Inv(s) && Enabled(s, a)
    ensures Work(Next(s, a)) + 1 <= Work(s) + Cost(s, a)
  {
    match a
    case WorkerStep(w) => WorkerStepCostsWork(s, w);
    case Spurious(w) => TotalUpdate(s.workers, w, Woken, WorkerRank);
    case Call(p) => TotalUpdate(s.producers, p, Calling(s.nextTask), ProducerRank);
    case ProducerStep(p, wake) => ProducerStepCostsWork(s, p, wake);
    case CallDestructor =>
    case DestructorStep => DestructorStepCostsWork(s);
  }

  /** Every run is at most as long as the work at its start plus what came from outside. So a
      run with finitely many calls and spurious wake-ups is finite, under any schedule. */
  lemma {:induction false} RunsAreBounded(s: Pool, run: seq<Action>)
    requires Inv(s) && IsRun(s, run)
    ensures |run| + Work(After(s, run)) <= Work(s) + RunCost(s, run)
    decreases |run|
  {
    if run != [] {
      StepKeepsInv(s, run[0]);
      StepCostsWork(s, run[0]);
      RunsAreBounded(Next(s, run[0]), run[1..]);
    }
  }

  lemma {:induction false} OwnRunCallsNobody(s: Pool, run: seq<Action>)
    requires IsRun(s, run) && RunCost(s, run) == 0
    ensures CallDestructor !in run
    decreases |run|
  {
    if run != [] {
      OwnRunCallsNobody(Next(s, run[0]), run[1..]);
    }
  }

  lemma {:induction false} AcceptedGrows(s: Pool, run: seq<Action>)
    requires IsRun(s, run)
    ensures s.accepted <= After(s, run).accepted
    decreases |run|
  {
    if run != [] {
      AcceptedGrows(Next(s, run[0]), run[1..]);
    }
  }

  /** Left to itself the pool finishes: from any reachable state, however its threads are
      scheduled, it can take at most `Work(s)` steps of its own, and when it can take no more
      every task accepted so far has been completed; unless a call that came after quit, and
      was under way already, has ended the process. */
  lemma LeftAloneItFinishes(s: Pool, run: seq<Action>)
    requires Reachable(s) && IsRun(s, run) && RunCost(s, run) == 0
    ensures |run| <= Work(s)
    ensures var end := After(s, run);
      !OwnStepEnabled(end) && !end.halted ==> AtRest(end) && forall t :: t in s.accepted ==> t in end.completed
    ensures !s.halted ==> (After(s, run).halted <==> EndsInLateCall(s, run))
    ensures !s.halted && s.destructor == NotCalled ==> !After(s, run).halted
  {
    ReachableInv(s);
    if !s.halted {
      HaltsByLateCall(s, run);
      OwnRunCallsNobody(s, run);
      if s.destructor == NotCalled { OpenPoolGoesOn(s, run); }
    }
    RunsAreBounded(s, run);
    RunKeepsInv(s, run);
    AcceptedGrows(s, run);
    var end := After(s, run);
    if !OwnStepEnabled(end) && !end.halted {
      StuckOnlyAtRest(end);
      forall t | t in s.accepted
        ensures t in end.completed
      {
        assert t in multiset(end.accepted);
        assert t in multiset(end.completed);
      }
    }
  }

  // ---- shutdown ----

  function IsIdle(pc: ProducerPc): nat {
    if pc.Idle? then 1 else 0
  }

  /** Steps left after notify_all: as `Work`, with one hopeless call per idle caller. */
  function ShutdownWork(s: Pool): nat {
    Work(s) + 17 * Total(s.producers, IsIdle)
  }

  /** After notify_all no worker sleeps, every step of any thread strictly reduces the work
      left, new calls of enqueue included, and the next state is again one after notify_all. */
  lemma ShutdownStep(s: Pool, a: Action)
    requires Inv(s) && HasNotifiedAll(s.destructor) && Enabled(s, a)
    ensures ShutdownWork(Next(s, a)) < ShutdownWork(s)
    ensures HasNotifiedAll(Next(s, a).destructor)
    ensures Asleep !in s.workers && Asleep !in Next(s, a).workers
  {
    var n := Next(s, a);
    StepKeepsInv(s, a);
    assert forall w :: 0 <= w < |s.workers| ==> WorkerFits(s, s.workers[w]);
    assert forall w :: 0 <= w < |n.workers| ==> WorkerFits(n, n.workers[w]);
    StepCostsWork(s, a);
    match a
    case Call(p) => TotalUpdate(s.producers, p, Calling(s.nextTask), IsIdle);
    case ProducerStep(p, wake) =>
      assert ProducerFits(s, s.producers[p]);
      TotalUpdate(s.producers, p, n.producers[p], IsIdle);
    case _ =>
  }

  /** Until the process halts or the destructor returns, some thread can step. */
  lemma ShutdownNeverStuck(s: Pool)
    requires Inv(s) && HasNotifiedAll(s.destructor)
    requires !s.halted && s.destructor != Destroyed
    ensures OwnStepEnabled(s)
  {
    if !OwnStepEnabled(s) {
      StuckOnlyAtRest(s);
    }
  }

  lemma {:induction false} ShutdownRunsAreBounded(s: Pool, run: seq<Action>)
    requires Inv(s) && HasNotifiedAll(s.destructor) && IsRun(s, run)
    ensures |run| + ShutdownWork(After(s, run)) <= ShutdownWork(s)
    ensures HasNotifiedAll(After(s, run).destructor) && Inv(After(s, run))
    decreases |run|
  {
    if run != [] {
      StepKeepsInv(s, run[0]);
      ShutdownStep(s, run[0]);
      ShutdownRunsAreBounded(Next(s, run[0]), run[1..]);
    }
  }

  /** Whatever the schedule after notify_all, the run has bounded length, and once the pool's
      own threads cannot step, the destructor has returned and every accepted task is
      completed, unless the run's last step is the quit check of a late caller, which ends the
      process; so without callers the destructor does return. */
  lemma ShutdownEnds(s: Pool, run: seq<Action>)
    requires Inv(s) && HasNotifiedAll(s.destructor) && IsRun(s, run)
    ensures |run| <= ShutdownWork(s)
    ensures var end := After(s, run);
      !OwnStepEnabled(end) && !end.halted ==>
        end.destructor == Destroyed && multiset(end.completed) == multiset(end.accepted)
    ensures !s.halted ==> (After(s, run).halted <==> EndsInLateCall(s, run))
    ensures !s.halted && NoCallUnderWay(s) && NoNewCall(run) && !OwnStepEnabled(After(s, run)) ==>
              After(s, run).destructor == Destroyed
  {
    if !s.halted {
      HaltsByLateCall(s, run);
      if NoCallUnderWay(s) && NoNewCall(run) { NoCallerNoEnd(s, run); }
    }
    ShutdownRunsAreBounded(s, run);
    var end := After(s, run);
    if !OwnStepEnabled(end) && !end.halted {
      StuckOnlyAtRest(end);
    }
  }
}
