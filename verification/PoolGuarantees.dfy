/** What the invariant means for the callers of the pool: no task is lost, run twice or
    left behind by the destructor, and the queue keeps its order. */
module PoolGuarantees {
  import opened Totals
  import opened PoolModel
  import opened PoolInvariant

  // ---- counting occurrences ----

  lemma {:induction false} CountIn(ts: seq<Task>, t: Task)
    ensures Count(ts, t) > 0 <==> t in ts
  {
    if ts != [] {
      CountIn(ts[..|ts| - 1], t);
      assert ts == ts[..|ts| - 1] + [ts[|ts| - 1]];
    }
  }

  lemma {:induction false} CountConcat(xs: seq<Task>, ys: seq<Task>, t: Task)
    ensures Count(xs + ys, t) == Count(xs, t) + Count(ys, t)
  {
    if ys == [] {
      assert xs + ys == xs;
    } else {
      var last := |ys| - 1;
      assert (xs + ys)[..|xs + ys| - 1] == xs + ys[..last];
      CountConcat(xs, ys[..last], t);
    }
  }

  lemma {:induction false} CountDistinct(ts: seq<Task>, t: Task)
    requires Distinct(ts)
    ensures Count(ts, t) == if t in ts then 1 else 0
  {
    if ts != [] {
      var init := ts[..|ts| - 1];
      assert ts == init + [ts[|ts| - 1]];
      CountDistinct(init, t);
    }
  }

  lemma {:induction false} CountIsMultiplicity(ts: seq<Task>, t: Task)
    ensures Count(ts, t) == multiset(ts)[t]
  {
    if ts != [] {
      assert ts == ts[..|ts| - 1] + [ts[|ts| - 1]];
      CountIsMultiplicity(ts[..|ts| - 1], t);
    }
  }

  lemma HoldersWitness(workers: seq<WorkerPc>, t: Task)
    ensures Holders(workers, t) > 0 <==> exists w :: 0 <= w < |workers| && Holds(workers[w], t)
  {
    if w :| 0 <= w < |workers| && Holds(workers[w], t) {
      TotalAtLeast(workers, w, Holding(t));
    } else {
      TotalNone(workers, Holding(t));
    }
  }

  lemma {:induction false} TwoHolders(workers: seq<WorkerPc>, v: nat, w: nat, t: Task)
    requires v < w < |workers| && Holds(workers[v], t) && Holds(workers[w], t)
    ensures Holders(workers, t) >= 2
  {
    var init := workers[..|workers| - 1];
    if w == |init| {
      assert Holds(init[v], t);
      HoldersWitness(init, t);
    } else {
      TwoHolders(init, v, w, t);
    }
  }

  // ---- exactly once ----

  /** Every accepted task is at one place: in the queue, in one worker's hand, or in the
      completed log. A task that was not accepted is nowhere. */
  lemma ExactlyOnce(s: Pool, t: Task)
    requires Inv(s)
    ensures Count(s.tasks, t) + Holders(s.workers, t) + Count(s.completed, t) == if t in s.accepted then 1 else 0
  {
    CountConcat(s.dequeued, s.tasks, t);
    CountDistinct(s.accepted, t);
  }

  /** No two workers run the same task, and none runs a task that is queued or completed. */
  lemma NeverRunTwice(s: Pool, v: nat, w: nat, t: Task)
    requires Inv(s) && v < |s.workers| && w < |s.workers|
    requires Holds(s.workers[v], t) && Holds(s.workers[w], t)
    ensures v == w && t in s.accepted && t !in s.tasks && t !in s.completed
  {
    ExactlyOnce(s, t);
    HoldersWitness(s.workers, t);
    CountIn(s.tasks, t);
    CountIn(s.completed, t);
    if v != w {
      TwoHolders(s.workers, if v < w then v else w, if v < w then w else v, t);
    }
  }

  // ---- destruction ----

  /** When the destructor has returned, every worker has left, the queue is empty, and the
      completed log is a permutation of everything ever accepted; and the futures that
      enqueue has returned are those of the completed tasks, so every one of them is ready. */
  lemma DrainedWhenDestroyed(s: Pool)
    requires Reachable(s) && s.destructor == Destroyed
    ensures forall w :: 0 <= w < |s.workers| ==> s.workers[w] == Exited
    ensures s.tasks == [] && multiset(s.completed) == multiset(s.accepted)
    ensures forall t :: t in s.returned <==> t in s.completed
  {
    ReachableInv(s);
    DestroyedIsDrained(s);
    forall t: Task
      ensures t in s.returned <==> t in s.completed
    {
      assert t in s.completed <==> t in multiset(s.completed);
      assert t in s.accepted <==> t in multiset(s.accepted);
      assert forall p :: 0 <= p < |s.producers| ==> ProducerFits(s, s.producers[p]);
    }
  }

  lemma DestroyedIsDrained(s: Pool)
    requires Inv(s) && s.destructor == Destroyed
    ensures s.quit && s.tasks == [] && multiset(s.completed) == multiset(s.accepted)
  {
    assert WorkerFits(s, s.workers[0]);
    forall t: Task
      ensures multiset(s.completed)[t] == multiset(s.accepted)[t]
    {
      TotalNone(s.workers, Holding(t));
      CountConcat(s.dequeued, s.tasks, t);
      CountIsMultiplicity(s.completed, t);
      CountIsMultiplicity(s.accepted, t);
    }
  }

  /** Once quit is set it stays set and no run adds to the accepted tasks: a caller that
      gets into enqueue ends the process instead. */
  lemma {:induction false} NothingAcceptedAfterQuit(s: Pool, run: seq<Action>)
    requires Inv(s) && s.quit && IsRun(s, run)
    ensures After(s, run).quit && After(s, run).accepted == s.accepted
    decreases |run|
  {
    if run != [] {
      StepKeepsInv(s, run[0]);
      NothingAcceptedAfterQuit(Next(s, run[0]), run[1..]);
    }
  }

  // ---- order ----

  /** Tasks accepted before position `i` and not completed. */
  ghost function Unfinished(s: Pool, i: nat): set<Task>
    requires i <= |s.accepted|
  {
    set t | t in s.accepted[..i] && t !in s.completed
  }

  /** Behind any completed task at most N - 1 earlier ones are unfinished. */
  ghost predicate BoundedOvertaking(s: Pool) {
    forall i :: 0 <= i < |s.accepted| && s.accepted[i] in s.completed ==> |Unfinished(s, i)| <= |s.workers| - 1
  }

  /** A single worker completes tasks in the order it takes them. */
  ghost predicate SoleWorkerInOrder(s: Pool) {
    |s.workers| == 1 ==>
      s.dequeued == s.completed + (if IsHolding(s.workers[0]) == 1 then [s.workers[0].task] else [])
  }

  function IsHolding(pc: WorkerPc): nat {
    if pc.Popped? || pc.Running? then 1 else 0
  }

  ghost function HandSet(workers: seq<WorkerPc>): set<Task> {
    set w | 0 <= w < |workers| && IsHolding(workers[w]) == 1 :: workers[w].task
  }

  lemma {:induction false} HandSetSize(workers: seq<WorkerPc>)
    ensures |HandSet(workers)| <= Total(workers, IsHolding)
  {
    if workers == [] {
      assert HandSet(workers) == {};
    } else {
      var init := workers[..|workers| - 1];
      var pc := workers[|workers| - 1];
      HandSetSize(init);
      assert forall w :: 0 <= w < |init| ==> init[w] == workers[w];
      if IsHolding(pc) == 1 {
        assert HandSet(workers) == HandSet(init) + {pc.task};
      } else {
        assert HandSet(workers) == HandSet(init);
      }
    }
  }

  lemma SubsetSize(xs: set<Task>, ys: set<Task>)
    requires xs <= ys
    ensures |xs| <= |ys|
  {
    assert ys == xs + (ys - xs);
  }

  /** A task taken off the queue and not completed is in some worker's hand. */
  lemma UnfinishedIsHeld(s: Pool, t: Task)
    requires Inv(s) && t in s.dequeued && t !in s.completed
    ensures t in HandSet(s.workers)
  {
    CountIn(s.dequeued, t);
    CountIn(s.completed, t);
    HoldersWitness(s.workers, t);
    var w :| 0 <= w < |s.workers| && Holds(s.workers[w], t);
  }

  /** When a worker completes a task, what is ahead of it and unfinished is in the hands of
      the other workers. */
  lemma FinishLeavesFew(s: Pool, w: nat, i: nat)
    requires Inv(s) && Enabled(s, WorkerStep(w)) && s.workers[w].Running?
    requires i < |s.accepted| && s.accepted[i] == s.workers[w].task
    ensures |Unfinished(WorkerNext(s, w), i)| <= |s.workers| - 1
  {
    var n := WorkerNext(s, w);
    var t := s.workers[w].task;
    StepKeepsInv(s, WorkerStep(w));
    HoldersWitness(s.workers, t);
    CountIn(s.dequeued, t);
    var j :| 0 <= j < |s.dequeued| && s.dequeued[j] == t;
    assert s.accepted[j] == t;
    forall u | u in Unfinished(n, i)
      ensures u in HandSet(n.workers)
    {
      UnfinishedIsHeld(n, u);
    }
    SubsetSize(Unfinished(n, i), HandSet(n.workers));
    HandSetSize(n.workers);
    TotalBelowLength(n.workers, IsHolding);
  }

  lemma BoundedOvertakingKept(s: Pool, a: Action)
    requires Inv(s) && BoundedOvertaking(s) && Enabled(s, a)
    ensures BoundedOvertaking(Next(s, a))
  {
    var n := Next(s, a);
    assert s.accepted <= n.accepted && s.completed <= n.completed;
    forall i | 0 <= i < |n.accepted| && n.accepted[i] in n.completed
      ensures |Unfinished(n, i)| <= |n.workers| - 1
    {
      if i < |s.accepted| && s.accepted[i] in s.completed {
        assert n.accepted[..i] == s.accepted[..i];
        SubsetSize(Unfinished(n, i), Unfinished(s, i));
      } else if i < |s.accepted| {
        FinishLeavesFew(s, a.w, i);
      } else {
        NotCompletedBeforeAccepted(s, n.accepted[i]);
      }
    }
  }

  /** Only accepted tasks are ever completed. */
  lemma NotCompletedBeforeAccepted(s: Pool, t: Task)
    requires Inv(s)
    ensures t in s.completed ==> t in s.accepted
  {
    CountIn(s.completed, t);
    CountIn(s.dequeued, t);
  }

  lemma {:induction false} OvertakingOverRun(s: Pool, run: seq<Action>)
    requires Inv(s) && BoundedOvertaking(s) && SoleWorkerInOrder(s) && IsRun(s, run)
    ensures BoundedOvertaking(After(s, run)) && SoleWorkerInOrder(After(s, run))
    decreases |run|
  {
    if run != [] {
      StepKeepsInv(s, run[0]);
      BoundedOvertakingKept(s, run[0]);
      OvertakingOverRun(Next(s, run[0]), run[1..]);
    }
  }

  /** In every reachable state: tasks are taken in the order they were accepted, a completed
      task has at most N - 1 unfinished ones ahead of it, and with one worker the completed
      log is a prefix of the accepted log. */
  lemma OrderAndOvertaking(s: Pool)
    requires Reachable(s)
    ensures s.accepted == s.dequeued + s.tasks
    ensures BoundedOvertaking(s)
    ensures |s.workers| == 1 ==> s.completed <= s.accepted
  {
    ReachableInv(s);
    var threads: nat, callers: nat, run: seq<Action> :|
      threads >= 1 && IsRun(Initial(threads, callers), run) && After(Initial(threads, callers), run) == s;
    InitialInv(threads, callers);
    OvertakingOverRun(Initial(threads, callers), run);
  }
}
