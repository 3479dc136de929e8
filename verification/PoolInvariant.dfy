/** What every step of the pool keeps: mutual exclusion, the meaning of each program
    counter, the history of the tasks, and the wake-up count. */
module PoolInvariant {
  import opened Totals
  import opened PoolModel

  // ---- mutual exclusion ----

  predicate WorkerOwns(pc: WorkerPc) {
    pc.Locked? || pc.Ready? || pc.Popping? || pc.Popped? || pc.Leaving?
  }

  predicate ProducerOwns(pc: ProducerPc) {
    pc.Entered? || pc.Emplaced? || pc.Notified?
  }

  predicate DestructorOwns(pc: DestructorPc) {
    pc.Inside? || pc.QuitSet? || pc.AllNotified?
  }

  /** The threads inside a critical section are exactly the recorded owner of mtx. */
  ghost predicate MutualExclusion(s: Pool) {
    && (forall w :: 0 <= w < |s.workers| ==> (WorkerOwns(s.workers[w]) <==> s.owner == Some(Worker(w))))
    && (forall p :: 0 <= p < |s.producers| ==> (ProducerOwns(s.producers[p]) <==> s.owner == Some(Producer(p))))
    && (DestructorOwns(s.destructor) <==> s.owner == Some(Destructor))
    && (s.owner.Some? && s.owner.value.Worker? ==> s.owner.value.w < |s.workers|)
    && (s.owner.Some? && s.owner.value.Producer? ==> s.owner.value.p < |s.producers|)
  }

  // ---- program counters against the shared fields ----

  predicate QuitIsSet(pc: DestructorPc) {
    pc.QuitSet? || pc.AllNotified? || pc.Joining? || pc.Destroyed?
  }

  predicate HasNotifiedAll(pc: DestructorPc) {
    pc.AllNotified? || pc.Joining? || pc.Destroyed?
  }

  ghost predicate WorkerFits(s: Pool, pc: WorkerPc) {
    && (pc.Ready? ==> s.quit || s.tasks != [])
    && (pc.Popping? ==> s.tasks != [])
    && (pc.Leaving? || pc.Exited? ==> s.quit && s.tasks == [])
    && (pc.Asleep? ==> !HasNotifiedAll(s.destructor))
  }

  ghost predicate ProducerFits(s: Pool, pc: ProducerPc) {
    pc.Emplaced? || pc.Notified? ==> !s.quit
  }

  ghost predicate DestructorFits(s: Pool) {
    && (s.quit <==> QuitIsSet(s.destructor))
    && (s.destructor.Joining? ==>
          && s.destructor.next <= |s.workers|
          && forall w :: 0 <= w < s.destructor.next ==> s.workers[w] == Exited)
    && (s.destructor.Destroyed? ==> forall w :: 0 <= w < |s.workers| ==> s.workers[w] == Exited)
  }

  ghost predicate CountersFit(s: Pool) {
    && |s.workers| >= 1
    && (forall w :: 0 <= w < |s.workers| ==> WorkerFits(s, s.workers[w]))
    && (forall p :: 0 <= p < |s.producers| ==> ProducerFits(s, s.producers[p]))
    && DestructorFits(s)
  }

  // ---- history of the tasks ----

  ghost predicate Distinct(ts: seq<Task>) {
    forall i, j :: 0 <= i < j < |ts| ==> ts[i] != ts[j]
  }

  /** The task a call of enqueue has made but not yet queued. */
  ghost predicate Pending(pc: ProducerPc, t: Task) {
    (pc.Calling? || pc.Entered?) && pc.task == t
  }

  ghost predicate History(s: Pool) {
    && s.accepted == s.dequeued + s.tasks
    && Distinct(s.accepted)
    && (forall t :: t in s.accepted ==> t < s.nextTask)
    && (forall t :: t in s.returned ==> t in s.accepted)
    && (forall p :: 0 <= p < |s.producers| ==> PendingIsNew(s, s.producers[p]))
    && (forall p, q, t :: 0 <= p < q < |s.producers| && Pending(s.producers[p], t) ==> !Pending(s.producers[q], t))
  }

  ghost predicate PendingIsNew(s: Pool, pc: ProducerPc) {
    && (pc.Calling? || pc.Entered? ==> pc.task < s.nextTask && pc.task !in s.accepted)
    && (pc.Emplaced? || pc.Notified? ==> pc.task in s.accepted)
  }

  /** The futures returned are those of the accepted tasks, but for the one whose call of
      enqueue still owns mtx. */
  ghost predicate FuturesReturned(s: Pool) {
    forall t :: t in s.returned <==> t in s.accepted && !ReturnPending(s, t)
  }

  ghost predicate ReturnPending(s: Pool, t: Task) {
    && s.owner.Some? && s.owner.value.Producer? && s.owner.value.p < |s.producers|
    && var pc := s.producers[s.owner.value.p];
    && (pc.Emplaced? || pc.Notified?) && pc.task == t
  }

  // ---- tasks in the hands of workers ----

  predicate Holds(pc: WorkerPc, t: Task) {
    (pc.Popped? || pc.Running?) && pc.task == t
  }

  /** The weight that counts the holders of `t`. */
  function Holding(t: Task): WorkerPc -> nat {
    pc => if Holds(pc, t) then 1 else 0
  }

  /** How many workers hold `t`. */
  function Holders(workers: seq<WorkerPc>, t: Task): nat { Total(workers, Holding(t)) }

  function Count(ts: seq<Task>, t: Task): nat {
    if ts == [] then 0 else Count(ts[..|ts| - 1], t) + (if ts[|ts| - 1] == t then 1 else 0)
  }

  /** Tasks off the queue are each in one worker's hand or completed. */
  ghost predicate Accounted(s: Pool) {
    forall t: Task :: Count(s.dequeued, t) == Holders(s.workers, t) + Count(s.completed, t)
  }

  lemma HoldersUpdate(workers: seq<WorkerPc>, w: nat, pc: WorkerPc, t: Task)
    requires w < |workers|
    ensures Holders(workers[w := pc], t) + (if Holds(workers[w], t) then 1 else 0)
         == Holders(workers, t) + (if Holds(pc, t) then 1 else 0)
  {
    TotalUpdate(workers, w, pc, Holding(t));
  }

  lemma CountAppend(ts: seq<Task>, x: Task, t: Task)
    ensures Count(ts + [x], t) == Count(ts, t) + (if x == t then 1 else 0)
  {
  }

  // ---- wake-ups ----

  function IsAsleep(pc: WorkerPc): nat {
    if pc.Asleep? then 1 else 0
  }

  /** Awake and on the way to the queue, with no task taken yet. */
  function IsHeading(pc: WorkerPc): nat {
    if pc.WantLock? || pc.Woken? || pc.Locked? || pc.Ready? || pc.Popping? then 1 else 0
  }

  function AsleepCount(s: Pool): nat { Total(s.workers, IsAsleep) }

  function HeadingCount(s: Pool): nat { Total(s.workers, IsHeading) }

  /** A producer has queued a task and not yet called notify_one. */
  predicate NotifyPending(s: Pool) {
    && s.owner.Some? && s.owner.value.Producer?
    && s.owner.value.p < |s.producers|
    && s.producers[s.owner.value.p].Emplaced?
  }

  /** While anybody sleeps, every queued task has an awake worker coming for it, except
      one task between its emplace and its notify_one. */
  ghost predicate NoLostWakeup(s: Pool) {
    AsleepCount(s) > 0 ==> HeadingCount(s) + (if NotifyPending(s) then 1 else 0) >= |s.tasks|
  }

  // ---- the invariant ----

  ghost predicate Inv(s: Pool) {
    MutualExclusion(s) && CountersFit(s) && History(s) && FuturesReturned(s) && Accounted(s) && NoLostWakeup(s)
  }

  lemma InitialInv(threads: nat, callers: nat)
    requires threads >= 1
    ensures Inv(Initial(threads, callers))
  {
    var s := Initial(threads, callers);
    forall t: Task ensures Holders(s.workers, t) == 0 { TotalNone(s.workers, Holding(t)); }
    TotalNone(s.workers, IsAsleep);
  }

  lemma WorkerStepKeepsExclusion(s: Pool, w: nat)
    requires MutualExclusion(s) && WorkerCanStep(s, w)
    ensures MutualExclusion(WorkerNext(s, w))
  {
  }

  lemma ProducerStepKeepsExclusion(s: Pool, p: nat, wake: Option<nat>)
    requires MutualExclusion(s) && ProducerCanStep(s, p, wake)
    ensures MutualExclusion(ProducerNext(s, p, wake))
  {
  }

  lemma MutualExclusionKept(s: Pool, a: Action)
    requires MutualExclusion(s) && Enabled(s, a)
    ensures MutualExclusion(Next(s, a))
  {
    match a
    case WorkerStep(w) => WorkerStepKeepsExclusion(s, w);
    case ProducerStep(p, wake) => ProducerStepKeepsExclusion(s, p, wake);
    case _ =>
  }

  lemma WorkerStepKeepsCounters(s: Pool, w: nat)
    requires MutualExclusion(s) && CountersFit(s) && WorkerCanStep(s, w)
    ensures CountersFit(WorkerNext(s, w))
  {
    assert WorkerFits(s, s.workers[w]);
  }

  lemma ProducerStepKeepsCounters(s: Pool, p: nat, wake: Option<nat>)
    requires MutualExclusion(s) && CountersFit(s) && ProducerCanStep(s, p, wake)
    ensures CountersFit(ProducerNext(s, p, wake))
  {
    assert ProducerFits(s, s.producers[p]);
  }

  lemma CountersFitKept(s: Pool, a: Action)
    requires MutualExclusion(s) && CountersFit(s) && Enabled(s, a)
    ensures CountersFit(Next(s, a))
  {
    match a
    case WorkerStep(w) => WorkerStepKeepsCounters(s, w);
    case ProducerStep(p, wake) => ProducerStepKeepsCounters(s, p, wake);
    case _ =>
  }

  lemma WorkerStepKeepsHistory(s: Pool, w: nat)
    requires History(s) && WorkerCanStep(s, w)
    ensures History(WorkerNext(s, w))
  {
    var n := WorkerNext(s, w);
    assert n.accepted == s.accepted && n.producers == s.producers;
    if s.workers[w].Popping? {
      assert s.tasks == [s.tasks[0]] + s.tasks[1..];
    }
    assert forall p :: 0 <= p < |s.producers| ==> PendingIsNew(s, s.producers[p]) && PendingIsNew(n, n.producers[p]);
  }

  lemma LogsFit(s: Pool, p: nat, wake: Option<nat>)
    requires History(s) && ProducerCanStep(s, p, wake)
    ensures var n := ProducerNext(s, p, wake);
      n.accepted == n.dequeued + n.tasks && Distinct(n.accepted) && (forall t :: t in n.accepted ==> t < n.nextTask)
  {
    var pc := s.producers[p];
    assert PendingIsNew(s, pc);
    if pc.Entered? && !s.quit {
      assert s.dequeued + s.tasks + [pc.task] == s.dequeued + (s.tasks + [pc.task]);
    }
  }

  lemma ProducerStepKeepsHistory(s: Pool, p: nat, wake: Option<nat>)
    requires History(s) && ProducerCanStep(s, p, wake)
    ensures History(ProducerNext(s, p, wake))
  {
    var n := ProducerNext(s, p, wake);
    var pc := s.producers[p];
    assert PendingIsNew(s, pc);
    LogsFit(s, p, wake);
    forall q | 0 <= q < |s.producers|
      ensures PendingIsNew(n, n.producers[q])
    {
      assert PendingIsNew(s, s.producers[q]);
      assert Pending(pc, pc.task) || !(pc.Calling? || pc.Entered?);
    }
    assert forall q, t :: 0 <= q < |s.producers| && Pending(n.producers[q], t) ==> Pending(s.producers[q], t);
  }

  lemma HistoryKept(s: Pool, a: Action)
    requires History(s) && Enabled(s, a)
    ensures History(Next(s, a))
  {
    var n := Next(s, a);
    match a
    case WorkerStep(w) => WorkerStepKeepsHistory(s, w);
    case ProducerStep(p, wake) => ProducerStepKeepsHistory(s, p, wake);
    case Call(p) =>
      forall q | 0 <= q < |s.producers|
        ensures PendingIsNew(n, n.producers[q])
      {
        assert PendingIsNew(s, s.producers[q]);
      }
    case _ =>
      assert forall p :: 0 <= p < |s.producers| ==> PendingIsNew(s, s.producers[p]) && PendingIsNew(n, n.producers[p]);
  }

  lemma FuturesReturnedKept(s: Pool, a: Action)
    requires MutualExclusion(s) && History(s) && FuturesReturned(s) && Enabled(s, a)
    ensures FuturesReturned(Next(s, a))
  {
    var n := Next(s, a);
    forall t: Task
      ensures t in n.returned <==> t in n.accepted && !ReturnPending(n, t)
    {
      match a {
        case WorkerStep(w) => assert WorkerOwns(s.workers[w]) <==> s.owner == Some(Worker(w));
        case ProducerStep(p, wake) => assert ProducerOwns(s.producers[p]) <==> s.owner == Some(Producer(p));
        case _ =>
      }
    }
  }

  lemma WorkerStepCounts(s: Pool, w: nat, t: Task)
    requires WorkerCanStep(s, w)
    ensures var n := WorkerNext(s, w);
      Count(n.dequeued, t) + Holders(s.workers, t) + Count(s.completed, t)
      == Count(s.dequeued, t) + Holders(n.workers, t) + Count(n.completed, t)
  {
    var n := WorkerNext(s, w);
    HoldersUpdate(s.workers, w, n.workers[w], t);
    match s.workers[w]
    case Popping => CountAppend(s.dequeued, s.tasks[0], t);
    case Running(x) => CountAppend(s.completed, x, t);
    case _ =>
  }

  lemma AccountedKept(s: Pool, a: Action)
    requires Accounted(s) && Enabled(s, a)
    ensures Accounted(Next(s, a))
  {
    var n := Next(s, a);
    forall t: Task
      ensures Count(n.dequeued, t) == Holders(n.workers, t) + Count(n.completed, t)
    {
      match a {
        case WorkerStep(w) => WorkerStepCounts(s, w, t);
        case Spurious(w) => HoldersUpdate(s.workers, w, Woken, t);
        case ProducerStep(p, wake) =>
          if wake.Some? { HoldersUpdate(s.workers, wake.value, Woken, t); }
        case DestructorStep => TotalSame(s.workers, n.workers, Holding(t));
        case _ =>
      }
    }
  }

  lemma WorkerCounts(s: Pool, w: nat, pc: WorkerPc)
    requires w < |s.workers|
    ensures Total(s.workers[w := pc], IsAsleep) + IsAsleep(s.workers[w]) == AsleepCount(s) + IsAsleep(pc)
    ensures Total(s.workers[w := pc], IsHeading) + IsHeading(s.workers[w]) == HeadingCount(s) + IsHeading(pc)
  {
    TotalUpdate(s.workers, w, pc, IsAsleep);
    TotalUpdate(s.workers, w, pc, IsHeading);
  }

  lemma NobodySleeps(s: Pool)
    requires Asleep !in s.workers
    ensures AsleepCount(s) == 0
  {
    TotalNone(s.workers, IsAsleep);
  }

  lemma NoLostWakeupKept(s: Pool, a: Action)
    requires MutualExclusion(s) && CountersFit(s) && NoLostWakeup(s) && Enabled(s, a)
    ensures NoLostWakeup(Next(s, a))
  {
    var n := Next(s, a);
    match a
    case WorkerStep(w) =>
      assert WorkerFits(s, s.workers[w]);
      WorkerCounts(s, w, n.workers[w]);
    case Spurious(w) => WorkerCounts(s, w, Woken);
    case ProducerStep(p, wake) =>
      if s.producers[p].Emplaced? {
        if wake.Some? { WorkerCounts(s, wake.value, Woken); } else { NobodySleeps(s); }
      }
    case DestructorStep =>
      if s.destructor.QuitSet? { NobodySleeps(n); }
    case _ =>
  }

  /** Every step of every thread keeps the invariant. */
  lemma StepKeepsInv(s: Pool, a: Action)
    requires Inv(s) && Enabled(s, a)
    ensures Inv(Next(s, a))
  {
    MutualExclusionKept(s, a);
    CountersFitKept(s, a);
    HistoryKept(s, a);
    FuturesReturnedKept(s, a);
    AccountedKept(s, a);
    NoLostWakeupKept(s, a);
  }

  lemma {:induction false} RunKeepsInv(s: Pool, run: seq<Action>)
    requires Inv(s) && IsRun(s, run)
    ensures Inv(After(s, run))
    decreases |run|
  {
    if run != [] {
      StepKeepsInv(s, run[0]);
      RunKeepsInv(Next(s, run[0]), run[1..]);
    }
  }

  lemma {:induction false} RunConcat(s: Pool, run: seq<Action>, more: seq<Action>)
    requires IsRun(s, run) && IsRun(After(s, run), more)
    ensures IsRun(s, run + more) && After(s, run + more) == After(After(s, run), more)
    decreases |run|
  {
    if run == [] {
      assert run + more == more;
    } else {
      assert (run + more)[1..] == run[1..] + more;
      RunConcat(Next(s, run[0]), run[1..], more);
    }
  }

  lemma RunSnoc(s: Pool, run: seq<Action>, a: Action)
    requires IsRun(s, run) && Enabled(After(s, run), a)
    ensures IsRun(s, run + [a]) && After(s, run + [a]) == Next(After(s, run), a)
  {
    assert [a][1..] == [];
    RunConcat(s, run, [a]);
  }

  // ---- the end of the process ----

  /** A call of enqueue gets to its quit check after quit was set. */
  ghost predicate IsLateCall(s: Pool, a: Action) {
    a.ProducerStep? && a.p < |s.producers| && s.producers[a.p].Entered? && s.quit
  }

  ghost predicate EndsInLateCall(s: Pool, run: seq<Action>) {
    && run != [] && IsRun(s, run[..|run| - 1])
    && IsLateCall(After(s, run[..|run| - 1]), run[|run| - 1])
  }

  /** A step ends the process exactly when it is the quit check of a late call: no other step
      of a caller, and no step of a worker or the destructor, does. */
  lemma HaltsOnlyLate(s: Pool, a: Action)
    requires Enabled(s, a)
    ensures Next(s, a).halted <==> IsLateCall(s, a)
  {
  }

  /** A run ends the process exactly when its last step is the quit check of a late call. */
  lemma {:induction false} HaltsByLateCall(s: Pool, run: seq<Action>)
    requires !s.halted && IsRun(s, run)
    ensures After(s, run).halted <==> EndsInLateCall(s, run)
    decreases |run|
  {
    if run != [] {
      var n := Next(s, run[0]);
      HaltsOnlyLate(s, run[0]);
      if n.halted {
        assert run[1..] == [];
        assert run[..0] == [];
      } else {
        HaltsByLateCall(n, run[1..]);
        LateCallCons(s, run);
      }
    }
  }

  lemma LateCallCons(s: Pool, run: seq<Action>)
    requires run != [] && IsRun(s, run) && !IsLateCall(s, run[0])
    ensures EndsInLateCall(s, run) <==> EndsInLateCall(Next(s, run[0]), run[1..])
  {
    if |run| > 1 {
      var init := run[..|run| - 1];
      assert init[1..] == run[1..][..|run| - 2];
    } else {
      assert run[..0] == [];
    }
  }

  /** As long as the destructor is not called the pool goes on, whoever calls it. */
  lemma {:induction false} OpenPoolGoesOn(s: Pool, run: seq<Action>)
    requires Inv(s) && !s.halted && s.destructor == NotCalled && IsRun(s, run) && CallDestructor !in run
    ensures !After(s, run).halted && After(s, run).destructor == NotCalled
    decreases |run|
  {
    if run != [] {
      assert run[0] in run;
      StepKeepsInv(s, run[0]);
      HaltsOnlyLate(s, run[0]);
      OpenPoolGoesOn(Next(s, run[0]), run[1..]);
    }
  }

  ghost predicate NoCallUnderWay(s: Pool) {
    forall p :: 0 <= p < |s.producers| ==> s.producers[p] == Idle
  }

  ghost predicate NoNewCall(run: seq<Action>) {
    forall a :: a in run ==> !a.Call?
  }

  /** Without callers nothing ends the process. */
  lemma {:induction false} NoCallerNoEnd(s: Pool, run: seq<Action>)
    requires !s.halted && IsRun(s, run) && NoCallUnderWay(s) && NoNewCall(run)
    ensures !After(s, run).halted && NoCallUnderWay(After(s, run))
    decreases |run|
  {
    if run != [] {
      assert run[0] in run;
      NoCallerNoEnd(Next(s, run[0]), run[1..]);
    }
  }

  // ---- who changes what ----

  function Actor(a: Action): Option<Thread> {
    match a
    case WorkerStep(w) => Some(Worker(w))
    case ProducerStep(p, _) => Some(Producer(p))
    case DestructorStep => Some(Destructor)
    case _ => None
  }

  /** Worker `v` was asleep and the step notified it, or it woke by itself. */
  ghost predicate WokenBy(s: Pool, a: Action, v: nat)
    requires v < |s.workers|
  {
    && s.workers[v] == Asleep
    && (a == Spurious(v)
        || (a.ProducerStep? && a.wake == Some(v))
        || (a.DestructorStep? && s.destructor == QuitSet))
  }

  /** A step moves its own thread and, when it notifies or is a spurious wake-up, a sleeper,
      and nobody else. */
  lemma StepMovesItsThread(s: Pool, a: Action)
    requires Enabled(s, a)
    ensures var n := Next(s, a);
      && |n.workers| == |s.workers| && |n.producers| == |s.producers|
      && (forall v :: 0 <= v < |s.workers| && n.workers[v] != s.workers[v] ==>
            a == WorkerStep(v) || (n.workers[v] == Woken && WokenBy(s, a, v)))
      && (forall q :: 0 <= q < |s.producers| && n.producers[q] != s.producers[q] ==>
            a == Call(q) || (a.ProducerStep? && a.p == q))
      && (n.destructor != s.destructor ==> a == CallDestructor || a == DestructorStep)
  {
  }

  /** A step takes a free mtx for its own thread, or gives it back, or leaves it alone. */
  lemma StepKeepsOthersLock(s: Pool, a: Action)
    requires MutualExclusion(s) && Enabled(s, a) && Next(s, a).owner != s.owner
    ensures Actor(a).Some?
    ensures (s.owner == None && Next(s, a).owner == Actor(a)) || (s.owner == Actor(a) && Next(s, a).owner == None)
  {
    match a
    case WorkerStep(w) => assert WorkerOwns(s.workers[w]) <==> s.owner == Some(Worker(w));
    case ProducerStep(p, _) => assert ProducerOwns(s.producers[p]) <==> s.owner == Some(Producer(p));
    case _ =>
  }

  /** Callers only add to the queue, at its end; workers only take from it, at its front; only
      the destructor sets quit, only workers complete tasks, only calls return futures. */
  lemma StepKeepsOthersData(s: Pool, a: Action)
    requires Enabled(s, a)
    ensures var n := Next(s, a);
      && (n.tasks != s.tasks ==>
            (a.ProducerStep? && |n.tasks| == |s.tasks| + 1 && s.tasks <= n.tasks)
            || (a.WorkerStep? && s.tasks != [] && n.tasks == s.tasks[1..]))
      && (n.quit != s.quit ==> a == DestructorStep && n.quit)
      && (n.completed != s.completed ==>
            a.WorkerStep? && |n.completed| == |s.completed| + 1 && s.completed <= n.completed)
      && (n.returned != s.returned ==> a.ProducerStep? && s.returned <= n.returned)
  {
  }

  /** The invariant holds in every state that any interleaving can reach. */
  lemma ReachableInv(s: Pool)
    requires Reachable(s)
    ensures Inv(s)
  {
    var threads: nat, callers: nat, run: seq<Action> :|
      threads >= 1 && IsRun(Initial(threads, callers), run) && After(Initial(threads, callers), run) == s;
    InitialInv(threads, callers);
    RunKeepsInv(Initial(threads, callers), run);
  }
}
