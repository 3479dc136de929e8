/** The thread pool of ThreadPool.hpp and ThreadPool.cpp as a transition system. One step
    is what one thread does between two points where another thread can interleave. */
module PoolModel {

  datatype Option<+T> = None | Some(value: T)

  /** Identity of the packaged task that one call of enqueue allocates. */
  type Task = nat

  datatype Thread = Worker(w: nat) | Producer(p: nat) | Destructor

  /** Where a worker is in its loop (ThreadPool.cpp:14-33). */
  datatype WorkerPc =
    | WantLock            // about to lock mtx for a new round
    | Locked              // owns mtx, evaluates the wait predicate
    | Asleep              // blocked in cv, mtx released
    | Woken               // notified, or woken spuriously, must lock mtx again
    | Ready               // owns mtx, predicate held, at the exit test
    | Popping             // owns mtx, at tasks.front()
    | Popped(task: Task)  // owns mtx, task taken off the queue
    | Running(task: Task) // mtx released, executing the task
    | Leaving             // owns mtx, returning from the loop
    | Exited

  /** Where a thread is in a call of enqueue (ThreadPool.hpp:50-71). */
  datatype ProducerPc =
    | Idle                 // outside enqueue
    | Calling(task: Task)  // packaged task made, about to lock mtx
    | Entered(task: Task)  // owns mtx, at the quit check
    | Emplaced(task: Task) // owns mtx, task queued, at notify_one
    | Notified(task: Task) // owns mtx, about to unlock and return the future

  /** Where the destructor is (ThreadPool.cpp:37-52). */
  datatype DestructorPc =
    | NotCalled
    | WaitLock
    | Inside               // owns mtx, at quit = true
    | QuitSet              // owns mtx, at notify_all
    | AllNotified          // owns mtx, about to unlock
    | Joining(next: nat)   // workers below next have been joined
    | Destroyed

  /** The shared fields, every thread's position, and the history of each task. `accepted`,
      `dequeued` and `completed` list tasks in the order of the event; `returned` holds the
      tasks whose future has been handed back. `halted` says that errif ended the process. */
  datatype Pool = Pool(
    owner: Option<Thread>,
    quit: bool,
    tasks: seq<Task>,
    workers: seq<WorkerPc>,
    producers: seq<ProducerPc>,
    destructor: DestructorPc,
    halted: bool,
    nextTask: Task,
    accepted: seq<Task>,
    dequeued: seq<Task>,
    completed: seq<Task>,
    returned: set<Task>)

  /** `Spurious` is a return of wait without a notification; `wake` is the sleeper that
      notify_one picks, None when nobody sleeps. */
  datatype Action =
    | WorkerStep(w: nat)
    | Spurious(w: nat)
    | Call(p: nat)
    | ProducerStep(p: nat, wake: Option<nat>)
    | CallDestructor
    | DestructorStep

  // ---- workers ----

  predicate WorkerCanStep(s: Pool, w: nat) {
    && w < |s.workers|
    && match s.workers[w]
       case WantLock => s.owner == None
       case Woken => s.owner == None
       case Asleep => false
       case Exited => false
       case Popping => s.tasks != []
       case _ => true
  }

  function WorkerNext(s: Pool, w: nat): Pool
    requires WorkerCanStep(s, w)
  {
    match s.workers[w]
    case WantLock => s.(owner := Some(Worker(w)), workers := s.workers[w := Locked])
    case Woken => s.(owner := Some(Worker(w)), workers := s.workers[w := Locked])
    case Locked =>
      if s.quit || s.tasks != [] then s.(workers := s.workers[w := Ready])
      else s.(owner := None, workers := s.workers[w := Asleep])
    case Ready =>
      if s.quit && s.tasks == [] then s.(workers := s.workers[w := Leaving])
      else s.(workers := s.workers[w := Popping])
    case Popping =>
      s.(tasks := s.tasks[1..],
         dequeued := s.dequeued + [s.tasks[0]],
         workers := s.workers[w := Popped(s.tasks[0])])
    case Popped(t) => s.(owner := None, workers := s.workers[w := Running(t)])
    case Running(t) => s.(completed := s.completed + [t], workers := s.workers[w := WantLock])
    case Leaving => s.(owner := None, workers := s.workers[w := Exited])
  }

  // ---- producers ----

  /** notify_one wakes one sleeping worker, and none exactly when none sleeps. */
  predicate NotifyChoice(workers: seq<WorkerPc>, wake: Option<nat>) {
    match wake
    case None => Asleep !in workers
    case Some(w) => w < |workers| && workers[w] == Asleep
  }

  predicate ProducerCanStep(s: Pool, p: nat, wake: Option<nat>) {
    && p < |s.producers|
    && match s.producers[p]
       case Idle => false
       case Calling(_) => s.owner == None && wake == None
       case Emplaced(_) => NotifyChoice(s.workers, wake)
       case _ => wake == None
  }

  function ProducerNext(s: Pool, p: nat, wake: Option<nat>): Pool
    requires ProducerCanStep(s, p, wake)
  {
    match s.producers[p]
    case Calling(t) => s.(owner := Some(Producer(p)), producers := s.producers[p := Entered(t)])
    case Entered(t) =>
      if s.quit then s.(halted := true)
      else s.(tasks := s.tasks + [t],
              accepted := s.accepted + [t],
              producers := s.producers[p := Emplaced(t)])
    case Emplaced(t) =>
      s.(producers := s.producers[p := Notified(t)],
         workers := if wake == None then s.workers else s.workers[wake.value := Woken])
    case Notified(t) =>
      s.(owner := None, producers := s.producers[p := Idle], returned := s.returned + {t})
  }

  // ---- destructor ----

  function Wake(pc: WorkerPc): WorkerPc {
    if pc == Asleep then Woken else pc
  }

  function WakeAll(workers: seq<WorkerPc>): seq<WorkerPc> {
    seq(|workers|, i requires 0 <= i < |workers| => Wake(workers[i]))
  }

  predicate DestructorCanStep(s: Pool) {
    match s.destructor
    case NotCalled => false
    case Destroyed => false
    case WaitLock => s.owner == None
    case Joining(k) => k < |s.workers| ==> s.workers[k] == Exited
    case _ => true
  }

  function DestructorNext(s: Pool): Pool
    requires DestructorCanStep(s)
  {
    match s.destructor
    case WaitLock => s.(owner := Some(Destructor), destructor := Inside)
    case Inside => s.(quit := true, destructor := QuitSet)
    case QuitSet => s.(workers := WakeAll(s.workers), destructor := AllNotified)
    case AllNotified => s.(owner := None, destructor := Joining(0))
    case Joining(k) =>
      if k < |s.workers| then s.(destructor := Joining(k + 1)) else s.(destructor := Destroyed)
  }

  // ---- the whole pool ----

  /** Nothing happens after the process has ended. */
  predicate Enabled(s: Pool, a: Action) {
    && !s.halted
    && match a
       case WorkerStep(w) => WorkerCanStep(s, w)
       case Spurious(w) => w < |s.workers| && s.workers[w] == Asleep
       case Call(p) => p < |s.producers| && s.producers[p] == Idle
       case ProducerStep(p, wake) => ProducerCanStep(s, p, wake)
       case CallDestructor => s.destructor == NotCalled
       case DestructorStep => DestructorCanStep(s)
  }

  function Next(s: Pool, a: Action): Pool
    requires Enabled(s, a)
  {
    match a
    case WorkerStep(w) => WorkerNext(s, w)
    case Spurious(w) => s.(workers := s.workers[w := Woken])
    case Call(p) => s.(nextTask := s.nextTask + 1, producers := s.producers[p := Calling(s.nextTask)])
    case ProducerStep(p, wake) => ProducerNext(s, p, wake)
    case CallDestructor => s.(destructor := WaitLock)
    case DestructorStep => DestructorNext(s)
  }

  /** A pool just built: every worker thread is about to lock mtx for the first time. */
  function Initial(threads: nat, callers: nat): Pool {
    Pool(None, false, [], seq(threads, _ => WantLock), seq(callers, _ => Idle),
         NotCalled, false, 0, [], [], [], {})
  }

  predicate IsRun(s: Pool, run: seq<Action>)
    decreases |run|
  {
    run == [] || (Enabled(s, run[0]) && IsRun(Next(s, run[0]), run[1..]))
  }

  function After(s: Pool, run: seq<Action>): Pool
    requires IsRun(s, run)
    decreases |run|
  {
    if run == [] then s else After(Next(s, run[0]), run[1..])
  }

  /** Some run of a pool with at least one worker and any number of callers ends in `s`. */
  ghost predicate Reachable(s: Pool) {
    exists threads: nat, callers: nat, run: seq<Action> ::
      && threads >= 1
      && IsRun(Initial(threads, callers), run)
      && After(Initial(threads, callers), run) == s
  }
}
