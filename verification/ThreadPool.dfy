/** The pool object itself, updated in place. Each method is what one thread does between two
    interleaving points, and is proved to be the step of PoolModel of the same name. */
module ThreadPools {
  import opened PoolModel
  import opened PoolInvariant

  class ThreadPool {
    var threadNum: nat
    var quit: bool
    var mtx: Option<Thread>
    var workers: seq<WorkerPc>
    var tasks: seq<Task>

    // Threads outside the pool, and whether errif has ended the process.
    var producers: seq<ProducerPc>
    var destructor: DestructorPc
    var halted: bool
    var nextTask: Task

    // History of the tasks.
    var accepted: seq<Task>
    var dequeued: seq<Task>
    var completed: seq<Task>
    var returned: set<Task>

    function View(): Pool
      reads this
    {
      Pool(mtx, quit, tasks, workers, producers, destructor, halted, nextTask,
           accepted, dequeued, completed, returned)
    }

    /** The number of threads asked for, or as many as the hardware runs when that number is
        not positive or too large. */
    constructor (requested: int, hardwareConcurrency: nat, callers: nat)
      requires hardwareConcurrency >= 1
      ensures View() == Initial(threadNum, callers) && Inv(View())
      ensures 1 <= threadNum <= hardwareConcurrency
      ensures threadNum == requested || (threadNum == hardwareConcurrency && !(1 <= requested <= hardwareConcurrency))
    {
      quit, mtx, tasks := false, None, [];
      destructor, halted, nextTask := NotCalled, false, 0;
      producers := seq(callers, _ => Idle);
      accepted, dequeued, completed, returned := [], [], [], {};
      workers := [];
      threadNum := if requested <= 0 || requested > hardwareConcurrency then hardwareConcurrency else requested;
      new;
      for i := 0 to threadNum
        invariant workers == seq(i, _ => WantLock)
        invariant View() == Initial(threadNum, callers).(workers := workers)
        invariant threadNum == if requested <= 0 || requested > hardwareConcurrency
          then hardwareConcurrency else requested
      {
        workers := workers + [WantLock];
      }
      InitialInv(threadNum, callers);
    }

    /** ThreadPool.cpp:15-32, one worker. */
    method WorkerStep(w: nat)
      requires !halted && WorkerCanStep(View(), w)
      modifies this
      ensures View() == WorkerNext(old(View()), w) && threadNum == old(threadNum)
    {
      match workers[w] {
        case WantLock => Wait(w);
        case Woken => Wait(w);
        case Locked => Wait(w);
        case Ready =>
          workers := workers[w := if quit && |tasks| == 0 then Leaving else Popping];
        case Popping => TakeTask(w);
        case Popped(task) => TakeTask(w);
        case Running(task) =>
          completed, workers := completed + [task], workers[w := WantLock];
        case Leaving =>
          mtx, workers := None, workers[w := Exited];
      }
    }

    /** ThreadPool.cpp:19-22: locking mtx, and the wait that holds it again on return. */
    method Wait(w: nat)
      requires WorkerCanStep(View(), w)
      requires workers[w].WantLock? || workers[w].Woken? || workers[w].Locked?
      modifies this`mtx, this`workers
      ensures View() == WorkerNext(old(View()), w)
    {
      if !workers[w].Locked? {
        mtx, workers := Some(Worker(w)), workers[w := Locked];
      } else if quit || |tasks| != 0 {
        workers := workers[w := Ready];
      } else {
        mtx, workers := None, workers[w := Asleep];
      }
    }

    /** ThreadPool.cpp:27-29: the head of the queue leaves it, then mtx is released. */
    method TakeTask(w: nat)
      requires WorkerCanStep(View(), w)
      requires workers[w].Popping? || workers[w].Popped?
      modifies this`mtx, this`workers, this`tasks, this`dequeued
      ensures View() == WorkerNext(old(View()), w)
    {
      if workers[w].Popping? {
        var task := tasks[0];
        tasks := tasks[1..];
        workers := workers[w := Popped(task)];
        dequeued := dequeued + [task];
      } else {
        mtx, workers := None, workers[w := Running(workers[w].task)];
      }
    }

    /** A return of cv.wait without a notification. */
    method SpuriousWakeup(w: nat)
      requires Enabled(View(), Spurious(w))
      modifies this`workers
      ensures View() == Next(old(View()), Spurious(w))
    {
      workers := workers[w := Woken];
    }

    /** ThreadPool.hpp:52-58: the packaged task is made before mtx is locked. */
    method Call(p: nat)
      requires Enabled(View(), Action.Call(p))
      modifies this`producers, this`nextTask
      ensures View() == Next(old(View()), Action.Call(p))
    {
      producers := producers[p := Calling(nextTask)];
      nextTask := nextTask + 1;
    }

    /** ThreadPool.hpp:60-70, one call of enqueue. */
    method ProducerStep(p: nat, wake: Option<nat>)
      requires !halted && ProducerCanStep(View(), p, wake)
      modifies this
      ensures View() == ProducerNext(old(View()), p, wake) && threadNum == old(threadNum)
    {
      match producers[p] {
        case Calling(task) =>
          mtx, producers := Some(Producer(p)), producers[p := Entered(task)];
        case Entered(task) =>
          if quit {
            halted := true;
          } else {
            tasks, accepted := tasks + [task], accepted + [task];
            producers := producers[p := Emplaced(task)];
          }
        case Emplaced(task) =>
          producers := producers[p := Notified(task)];
          if wake.Some? {
            workers := workers[wake.value := Woken];
          }
        case Notified(task) =>
          mtx, producers := None, producers[p := Idle];
          returned := returned + {task};
      }
    }

    method CallDestructor()
      requires Enabled(View(), Action.CallDestructor)
      modifies this`destructor
      ensures View() == Next(old(View()), Action.CallDestructor)
    {
      destructor := WaitLock;
    }

    /** ThreadPool.cpp:39-51. */
    method DestructorStep()
      requires !halted && DestructorCanStep(View())
      modifies this
      ensures View() == DestructorNext(old(View())) && threadNum == old(threadNum)
    {
      match destructor {
        case WaitLock =>
          mtx, destructor := Some(Destructor), Inside;
        case Inside =>
          quit, destructor := true, QuitSet;
        case QuitSet =>
          destructor := AllNotified;
          NotifyAll();
        case AllNotified =>
          mtx, destructor := None, Joining(0);
        case Joining(k) =>
          destructor := if k < |workers| then Joining(k + 1) else Destroyed;
      }
    }

    method NotifyAll()
      modifies this`workers
      ensures workers == WakeAll(old(workers))
    {
      for i := 0 to |workers|
        invariant |workers| == |old(workers)|
        invariant forall k :: 0 <= k < i ==> workers[k] == Wake(old(workers)[k])
        invariant forall k :: i <= k < |workers| ==> workers[k] == old(workers)[k]
      {
        if workers[i] == Asleep {
          workers := workers[i := Woken];
        }
      }
    }

    /** One step of whichever thread is next. */
    method Step(a: Action)
      requires Enabled(View(), a)
      modifies this
      ensures View() == Next(old(View()), a)
    {
      match a {
        case WorkerStep(w) => WorkerStep(w);
        case Spurious(w) => SpuriousWakeup(w);
        case Call(p) => Call(p);
        case ProducerStep(p, wake) => ProducerStep(p, wake);
        case CallDestructor => CallDestructor();
        case DestructorStep => DestructorStep();
      }
    }

    /** Runs the threads in the order a schedule asks for, passing over what is blocked. */
    method Execute(schedule: seq<Action>) returns (run: seq<Action>)
      requires Inv(View())
      modifies this
      ensures IsRun(old(View()), run) && View() == After(old(View()), run)
      ensures Inv(View())
      ensures IsRun(old(View()), schedule) ==> run == schedule
    {
      ghost var s := View();
      run := [];
      for i := 0 to |schedule|
        invariant IsRun(s, run) && View() == After(s, run)
        invariant IsRun(s, schedule) ==> run == schedule[..i]
      {
        var a := schedule[i];
        if IsRun(s, schedule) { PrefixIsRun(s, schedule, i); }
        if Enabled(View(), a) {
          RunSnoc(s, run, a);
          Step(a);
          run := run + [a];
        }
      }
      RunKeepsInv(s, run);
    }
  }

  lemma {:induction false} PrefixIsRun(s: Pool, run: seq<Action>, i: nat)
    requires IsRun(s, run) && i < |run|
    ensures IsRun(s, run[..i]) && Enabled(After(s, run[..i]), run[i])
    decreases i
  {
    if i > 0 {
      assert run[..i][1..] == run[1..][..i - 1];
      PrefixIsRun(Next(s, run[0]), run[1..], i - 1);
    }
  }
}
