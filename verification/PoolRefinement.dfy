/** The pool, seen without its lock and condition variable: a first-in first-out queue of
    pending tasks and a set of running ones. Every step of the pool is a step of this queue
    or changes nothing in it. */
module PoolRefinement {
  import opened Totals
  import opened PoolModel
  import opened PoolInvariant
  import opened PoolGuarantees

  datatype Spec = Spec(pending: seq<Task>, running: set<Task>, done: seq<Task>)

  datatype SpecAction = Submit(task: Task) | Start | Finish(task: Task)

  /** `limit` is the number of tasks that may run at the same time. */
  predicate SpecEnabled(sp: Spec, limit: nat, a: SpecAction) {
    match a
    case Submit(t) => t !in sp.pending && t !in sp.running && t !in sp.done
    case Start => sp.pending != [] && |sp.running| < limit
    case Finish(t) => t in sp.running
  }

  function SpecNext(sp: Spec, limit: nat, a: SpecAction): Spec
    requires SpecEnabled(sp, limit, a)
  {
    match a
    case Submit(t) => sp.(pending := sp.pending + [t])
    case Start => sp.(pending := sp.pending[1..], running := sp.running + {sp.pending[0]})
    case Finish(t) => sp.(running := sp.running - {t}, done := sp.done + [t])
  }

  predicate IsSpecRun(sp: Spec, limit: nat, run: seq<SpecAction>)
    decreases |run|
  {
    run == [] || (SpecEnabled(sp, limit, run[0]) && IsSpecRun(SpecNext(sp, limit, run[0]), limit, run[1..]))
  }

  function SpecAfter(sp: Spec, limit: nat, run: seq<SpecAction>): Spec
    requires IsSpecRun(sp, limit, run)
    decreases |run|
  {
    if run == [] then sp else SpecAfter(SpecNext(sp, limit, run[0]), limit, run[1..])
  }

  ghost function View(s: Pool): Spec {
    Spec(s.tasks, HandSet(s.workers), s.completed)
  }

  /** What a step of the pool does to the queue: emplace submits, the pop starts, the end of
      the task finishes; locking, waiting, waking, exiting and joining do nothing. */
  function Visible(s: Pool, a: Action): seq<SpecAction> {
    match a
    case WorkerStep(w) =>
      if w < |s.workers| && s.workers[w].Popping? then [Start]
      else if w < |s.workers| && s.workers[w].Running? then [Finish(s.workers[w].task)]
      else []
    case ProducerStep(p, _) =>
      if p < |s.producers| && s.producers[p].Entered? && !s.quit then [Submit(s.producers[p].task)] else []
    case _ => []
  }

  function VisibleRun(s: Pool, run: seq<Action>): seq<SpecAction>
    requires IsRun(s, run)
    decreases |run|
  {
    if run == [] then [] else Visible(s, run[0]) + VisibleRun(Next(s, run[0]), run[1..])
  }

  lemma HandSetUnchanged(workers: seq<WorkerPc>, other: seq<WorkerPc>)
    requires |workers| == |other|
    requires forall v :: 0 <= v < |workers| ==> IsHolding(workers[v]) == IsHolding(other[v])
    requires forall v :: 0 <= v < |workers| && IsHolding(workers[v]) == IsHolding(other[v]) == 1 ==>
                           workers[v].task == other[v].task
    ensures HandSet(workers) == HandSet(other)
  {
  }

  lemma HandSetTake(workers: seq<WorkerPc>, w: nat, t: Task)
    requires w < |workers| && IsHolding(workers[w]) == 0
    ensures HandSet(workers[w := Popped(t)]) == HandSet(workers) + {t}
  {
    var n := workers[w := Popped(t)];
    assert n[w].task == t;
    forall u | u in HandSet(workers)
      ensures u in HandSet(n)
    {
      var v :| 0 <= v < |workers| && IsHolding(workers[v]) == 1 && workers[v].task == u;
      assert n[v].task == u;
    }
    forall u | u in HandSet(n)
      ensures u == t || u in HandSet(workers)
    {
      var v :| 0 <= v < |n| && IsHolding(n[v]) == 1 && n[v].task == u;
      assert v != w ==> workers[v].task == u;
    }
  }

  lemma HandSetDrop(workers: seq<WorkerPc>, w: nat)
    requires w < |workers| && workers[w].Running?
    requires forall v :: 0 <= v < |workers| && v != w ==> !Holds(workers[v], workers[w].task)
    ensures HandSet(workers[w := WantLock]) == HandSet(workers) - {workers[w].task}
  {
    var t := workers[w].task;
    var n := workers[w := WantLock];
    forall u | u in HandSet(n)
      ensures u in HandSet(workers) && u != t
    {
      var v :| 0 <= v < |n| && IsHolding(n[v]) == 1 && n[v].task == u;
      assert v != w && Holds(workers[v], u);
      assert workers[v].task == u;
    }
    forall u | u in HandSet(workers) && u != t
      ensures u in HandSet(n)
    {
      var v :| 0 <= v < |workers| && IsHolding(workers[v]) == 1 && workers[v].task == u;
      assert n[v].task == u;
    }
  }

  lemma WorkerStepRefines(s: Pool, w: nat)
    requires Inv(s) && Enabled(s, WorkerStep(w))
    ensures var vis := Visible(s, WorkerStep(w));
      && IsSpecRun(View(s), |s.workers|, vis)
      && SpecAfter(View(s), |s.workers|, vis) == View(WorkerNext(s, w))
  {
    var n := WorkerNext(s, w);
    match s.workers[w]
    case Popping =>
      HandSetTake(s.workers, w, s.tasks[0]);
      HandSetSize(s.workers);
      TotalBelowLength(s.workers, IsHolding);
    case Running(t) =>
      assert Holds(s.workers[w], t);
      assert w < |s.workers| && s.workers[w].task == t && t in HandSet(s.workers);
      forall v | 0 <= v < |s.workers| && v != w
        ensures !Holds(s.workers[v], t)
      {
        if Holds(s.workers[v], t) { NeverRunTwice(s, v, w, t); }
      }
      HandSetDrop(s.workers, w);
    case _ => HandSetUnchanged(s.workers, n.workers);
  }

  lemma NewTaskIsNowhere(s: Pool, t: Task)
    requires Inv(s) && t !in s.accepted
    ensures t !in s.tasks && t !in HandSet(s.workers) && t !in s.completed
  {
    ExactlyOnce(s, t);
    CountIn(s.tasks, t);
    CountIn(s.completed, t);
    HoldersWitness(s.workers, t);
    assert forall v :: 0 <= v < |s.workers| ==> !Holds(s.workers[v], t);
  }

  /** One step of the pool is at most one step of the queue. */
  lemma StepRefines(s: Pool, a: Action)
    requires Inv(s) && Enabled(s, a)
    ensures var vis := Visible(s, a);
      && |vis| <= 1
      && IsSpecRun(View(s), |s.workers|, vis)
      && SpecAfter(View(s), |s.workers|, vis) == View(Next(s, a))
  {
    match a
    case WorkerStep(w) => WorkerStepRefines(s, w);
    case ProducerStep(p, wake) =>
      HandSetUnchanged(s.workers, Next(s, a).workers);
      if s.producers[p].Entered? {
        assert PendingIsNew(s, s.producers[p]);
        NewTaskIsNowhere(s, s.producers[p].task);
      }
    case _ => HandSetUnchanged(s.workers, Next(s, a).workers);
  }

  lemma {:induction false} SpecRunConcat(sp: Spec, limit: nat, xs: seq<SpecAction>, ys: seq<SpecAction>)
    requires IsSpecRun(sp, limit, xs) && IsSpecRun(SpecAfter(sp, limit, xs), limit, ys)
    ensures IsSpecRun(sp, limit, xs + ys)
    ensures SpecAfter(sp, limit, xs + ys) == SpecAfter(SpecAfter(sp, limit, xs), limit, ys)
    decreases |xs|
  {
    if xs == [] {
      assert xs + ys == ys;
    } else {
      assert (xs + ys)[1..] == xs[1..] + ys;
      SpecRunConcat(SpecNext(sp, limit, xs[0]), limit, xs[1..], ys);
    }
  }

  /** Refinement over whole runs: what any interleaving of the pool shows to the outside is a
      run of the queue with as many running places as there are workers. */
  lemma {:induction false} RunRefines(s: Pool, run: seq<Action>)
    requires Inv(s) && IsRun(s, run)
    ensures var vis := VisibleRun(s, run);
      && IsSpecRun(View(s), |s.workers|, vis)
      && SpecAfter(View(s), |s.workers|, vis) == View(After(s, run))
    decreases |run|
  {
    if run != [] {
      var n := Next(s, run[0]);
      StepKeepsInv(s, run[0]);
      StepRefines(s, run[0]);
      RunRefines(n, run[1..]);
      assert |n.workers| == |s.workers|;
      SpecRunConcat(View(s), |s.workers|, Visible(s, run[0]), VisibleRun(n, run[1..]));
    }
  }

  /** Started empty, the pool refines the queue started empty. */
  lemma PoolRefinesQueue(threads: nat, callers: nat, run: seq<Action>)
    requires threads >= 1 && IsRun(Initial(threads, callers), run)
    ensures var vis := VisibleRun(Initial(threads, callers), run);
      && IsSpecRun(Spec([], {}, []), threads, vis)
      && SpecAfter(Spec([], {}, []), threads, vis) == View(After(Initial(threads, callers), run))
  {
    var s := Initial(threads, callers);
    InitialInv(threads, callers);
    RunRefines(s, run);
    assert HandSet(s.workers) == {};
  }
}
