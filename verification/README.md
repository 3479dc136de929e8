# Verified model of the chat server's thread pool and epoll reactor

The project models two components of the C++ chat server and proves what they are for.

**The thread pool** (`ThreadPool.hpp`, `ThreadPool.cpp`) is a mutex and condition-variable work
queue. `PoolModel` is its transition system: one step is what one thread (a worker, a caller of
`enqueue`, or the destructor) does between two points where another thread can interleave. The
number of workers, callers, tasks and steps is unbounded, and a sleeping worker may wake without a
notification at any time. `ThreadPools.ThreadPool` is the object updated in place; each of its
methods is proved to be the step of the model.

- `Totals`: sums over threads.
- `PoolModel`: state, steps, runs. `PoolInvariant`: what every step keeps.
- `PoolGuarantees`: exactly once, order, overtaking, drained destruction.
- `PoolProgress`: no lost wake-up, no deadlock, bounded runs, shutdown.
- `PoolCompletion`: every call and every shutdown can be finished, from every reachable state.
- `PoolRefinement`: the pool refines a FIFO queue with N running places.
- `PoolRealization`: every run of that queue is shown by some run of the pool.
- `ThreadPools`: the class.

**The reactor** (`Epoll.cpp`, `EventLoop.cpp`, `Server.cpp`, `Connection.cpp`, `Socket.cpp`) is an
epoll event loop whose callbacks create, change and delete connections while a batch of ready
connections is being walked. `Kernels.Kernel` has the operating system's side: its method contracts
are the assumptions, and each body chooses any outcome that its contract allows. `ReactorModel` is
the reactor as functions on one value, `ReactorInvariant` and `ReactorGuarantees` prove its
properties over every run, and the classes `Connections.Connection`, `Epolls.Epoll`,
`EventLoops.EventLoop` and `Servers.Server` are the objects on the heap. Each method of a class is
proved to change the reactor exactly as the model says. `EventLoop.Start` is proved to perform a run
of the model with as many results of wait as there were rounds, the ones that the kernel returned,
and a dispatch for every connection in them; so every statement about runs holds of the program on
the heap. `ReactorRuns` puts runs together. `ReactorRealization` is the converse of the guarantees:
whatever clients come, some run serves them, so what the guarantees are about does happen.
`CStrings` has `strcpy` and the echo it produces.

## How the code was read

- `recvCallback` prints the receive buffer as a C string and `sendCallback` copies it with
  `strcpy`. A message that fills all 2048 bytes without a NUL makes both read past the buffer. The
  model stops there (`halted`, `defined`), and `ReactorGuarantees.StepKeepsInv` proves that this is
  the only way a step can stop it and exactly when it does. `ReactorRealization.OverrunExample`
  gives the input, 2048 bytes of 7, and a run of the server that receives it.
- `sendCallback` copies with `strcpy` but writes `rlen` bytes. After the first NUL of a message the
  reply is therefore whatever the send buffer held. `ExactEchoIff` gives the exact condition under
  which the reply is the message; `EchoLosesTail` and `ReactorRealization.EchoLossExample` give a
  message with which it is not, the two bytes 0 and 7, and a run of the server in which the second
  byte comes back as the second byte of the client's new send buffer.
- A failed `accept` still makes a connection, with descriptor -1. It is put into `connMap` and
  marked, and the kernel refuses it; statements about the registry are for descriptors other than -1.
- The comment at `inc/Epoll.hpp` lines 27-29 says that ACTION_DELETE does not check whether the
  connection is in the epoll; the code does check (`src/Epoll.cpp` line 32), and the model follows
  the code.
- `hardware_concurrency()` may report 0; the pool is built for at least 1.
- A call of `enqueue` from inside a task is a caller like any other. A caller that comes after
  `quit` ends the process, as `errif` does, and that is a final state of the model.

## Model

| member | source | states |
|---|---|---|
| `PoolInvariant.StepKeepsInv` | src/threadpool/ThreadPool.cpp:15-51 | Every step of every thread, spurious wake-ups included, keeps mutual exclusion, the meaning of each program counter, the task history, the accounting of tasks, and the wake-up count |
| `PoolInvariant.ReachableInv` | src/threadpool/ThreadPool.cpp:12-52 | The invariant holds in every state any interleaving of any number of workers and callers reaches |
| `PoolInvariant.HaltsOnlyLate` | inc/threadpool/ThreadPool.hpp:62 | A step ends the process if and only if it is the quit check of a call of enqueue that finds quit set; no step of a worker or the destructor does |
| `PoolInvariant.HaltsByLateCall` | inc/threadpool/ThreadPool.hpp:62 | A run ends the process if and only if its last step is such a quit check |
| `PoolInvariant.OpenPoolGoesOn` | inc/threadpool/ThreadPool.hpp:60-70 | While the destructor has not been called no run ends the process, whoever calls and however threads interleave |
| `PoolInvariant.StepMovesItsThread` | src/threadpool/ThreadPool.cpp:12-52 | A step moves its own thread, and a sleeper that it notifies or that wakes by itself, and no other thread; notify_one wakes one |
| `PoolInvariant.StepKeepsOthersLock` | src/threadpool/ThreadPool.cpp:19-31 | A step takes a free mutex for its own thread or gives its own back; it never takes or releases another's |
| `PoolInvariant.StepKeepsOthersData` | inc/threadpool/ThreadPool.hpp:60-70 | Callers only append to the queue and workers only take its head; only the destructor sets quit, and nothing clears it; only workers complete tasks, only calls return futures |
| `PoolInvariant.NoLostWakeupKept` | inc/threadpool/ThreadPool.hpp:60-68 | Emplace and notify in one critical section, and check-then-sleep under the lock, keep the wake-up count: while anybody sleeps every queued task has an awake worker coming, but for one between emplace and notify |
| `PoolInvariant.MutualExclusionKept` | src/threadpool/ThreadPool.cpp:19-29 | The threads inside a critical section are exactly the recorded owner of the mutex |
| `PoolInvariant.HistoryKept` | inc/threadpool/ThreadPool.hpp:55-68 | The accepted log is the dequeued log followed by the queue, without repetition; a task not yet queued is new |
| `PoolInvariant.FuturesReturnedKept` | inc/threadpool/ThreadPool.hpp:58-70 | The futures returned are exactly those of the accepted tasks, except the one whose call still owns the mutex |
| `PoolProgress.QueuedTaskIsAwaited` | src/threadpool/ThreadPool.cpp:15-31 | In every reachable state: sleepers imply that awake workers cover the queue, and a queued task nobody comes for means that all N workers are busy with tasks |
| `PoolProgress.StuckOnlyAtRest` | src/threadpool/ThreadPool.cpp:15-51 | No deadlock: when no thread of the pool can step, the queue is empty, nobody is mid-call, workers are asleep or gone, and everything accepted is completed |
| `PoolProgress.StepCostsWork` | src/threadpool/ThreadPool.cpp:15-51 | Every step uses up work that was there or that the step brought in from outside |
| `PoolProgress.RunsAreBounded` | src/threadpool/ThreadPool.cpp:15-51 | Every run under any schedule is at most as long as the initial work plus a constant for each call and each spurious wake-up (and one linear in N for the destructor) |
| `PoolProgress.LeftAloneItFinishes` | src/threadpool/ThreadPool.cpp:15-33 | From any reachable state the pool's own steps are bounded in number under any schedule, and when they end every task accepted so far is completed; the process has ended only if the last step is a late caller's quit check, and never when the destructor was not called |
| `PoolProgress.ShutdownStep` | src/threadpool/ThreadPool.cpp:39-51 | After notify_all nobody sleeps again, and every step of any thread, late calls of enqueue included, strictly reduces a measure over the queue and all program counters |
| `PoolProgress.ShutdownNeverStuck` | src/threadpool/ThreadPool.cpp:45-51 | Until the destructor returns or the process has ended, some thread of the pool can step |
| `PoolProgress.ShutdownEnds` | src/threadpool/ThreadPool.cpp:37-52 | After notify_all every run is bounded, and it can only end with the destructor returned and every accepted task completed, or with the quit check of a late caller as its last step; without callers it ends with the destructor returned |
| `PoolCompletion.AnyCallCompletes` | inc/threadpool/ThreadPool.hpp:50-71 | From every reachable state of a pool not being destroyed, any idle caller can call enqueue, and some schedule of the pool's own steps returns its future and completes its task and all others |
| `PoolCompletion.DestructorReturns` | src/threadpool/ThreadPool.cpp:37-52 | From every reachable state of a pool not being destroyed, calls under way included, some schedule takes a call of the destructor to its return, with every accepted task completed and the process going on |
| `PoolCompletion.SpuriousWakeupIsHarmless` | src/threadpool/ThreadPool.cpp:20-22 | A worker that wakes without a notification and finds nothing goes back to sleep, and the pool is exactly as before |
| `PoolGuarantees.ExactlyOnce` | inc/threadpool/ThreadPool.hpp:60-68 | Each accepted task is at exactly one place: queue, one worker's hand, or completed log; any other task is nowhere |
| `PoolGuarantees.NeverRunTwice` | src/threadpool/ThreadPool.cpp:27-31 | No task is in two hands, and a task in a hand is neither queued nor completed |
| `PoolGuarantees.DrainedWhenDestroyed` | src/threadpool/ThreadPool.cpp:23-52 | When the destructor has returned, all workers have left, the queue is empty, the completed log is a permutation of the accepted log, and the futures returned by enqueue are exactly those of completed tasks |
| `PoolGuarantees.NothingAcceptedAfterQuit` | inc/threadpool/ThreadPool.hpp:62 | After quit no run accepts anything |
| `PoolGuarantees.BoundedOvertakingKept` | src/threadpool/ThreadPool.cpp:27-31 | Every step keeps the bound of N - 1 unfinished tasks ahead of any completed one |
| `PoolGuarantees.OrderAndOvertaking` | src/threadpool/ThreadPool.cpp:27-31 | In every reachable state tasks are taken in order of acceptance, a completed task has at most N - 1 unfinished ones ahead of it, and with one worker the completed log is a prefix of the accepted log |
| `PoolRefinement.StepRefines` | src/threadpool/ThreadPool.cpp:12-34 | A step of the pool is one step of a FIFO with N running places (submit, start head, finish) or changes nothing in it |
| `PoolRefinement.PoolRefinesQueue` | src/threadpool/ThreadPool.cpp:12-34 | Every run of the pool shows a run of the FIFO, started empty, ending in the corresponding state |
| `PoolRealization.PoolRealizesQueue` | src/threadpool/ThreadPool.cpp:12-34 | Conversely, for every run of the FIFO with N running places (tasks named in order of submission) some run of the pool of N workers shows exactly it, N tasks at a time included |
| `PoolRealization.AllRunning` | src/threadpool/ThreadPool.cpp:27-31 | N busy workers run N different tasks |
| `ThreadPools.ThreadPool.constructor` | src/threadpool/ThreadPool.cpp:4-35 | The thread count asked for when it is between 1 and the hardware's, else the hardware's; that many workers at the start of their loop |
| `ThreadPools.ThreadPool.WorkerStep` | src/threadpool/ThreadPool.cpp:15-32 | One step of a worker on the object is the worker step of the model, branch by branch |
| `ThreadPools.ThreadPool.Wait` | src/threadpool/ThreadPool.cpp:19-22 | Locking and the predicate wait: sleeping releases the mutex in the same step as the failed check |
| `ThreadPools.ThreadPool.TakeTask` | src/threadpool/ThreadPool.cpp:27-29 | The head of the queue moves to the worker's hand before the mutex is released |
| `ThreadPools.ThreadPool.ProducerStep` | inc/threadpool/ThreadPool.hpp:60-70 | One step of enqueue on the object is the producer step of the model; after quit it accepts nothing and ends the process |
| `ThreadPools.ThreadPool.DestructorStep` | src/threadpool/ThreadPool.cpp:37-52 | One step of the destructor on the object is the destructor step of the model: quit and notify under one lock, then the joins in order |
| `ThreadPools.ThreadPool.NotifyAll` | src/threadpool/ThreadPool.cpp:42 | Every sleeper is woken and no other worker changes |
| `ThreadPools.ThreadPool.Execute` | src/threadpool/ThreadPool.cpp:12-52 | Any schedule of steps on the object is a run of the model and keeps the invariant, and it is all of the schedule when that is a run |
| `Kernels.Kernel.EpollWait` | src/Epoll.cpp:44 | Assumption on the kernel: registered descriptors, each at most once, with their own data and a mask inside the registered one plus ERR and HUP |
| `Kernels.Kernel.Accept` | src/Socket.cpp:58 | Assumption on the kernel: -1 or any descriptor not open now, one just closed included |
| `Kernels.Kernel.Recv` | src/Server.cpp:63 | Assumption on the kernel: up to the requested bytes at the requested place, end of stream, or would-block; nothing for an empty request |
| `ReactorInvariant.AcceptKeepsServing` | src/Server.cpp:33-53 | acceptCallback keeps the whole invariant, for any descriptor accept returns, -1 and reused ones included |
| `ReactorInvariant.DrainKeepsBytes` | src/Server.cpp:59-71 | However recv splits the bytes, the loop leaves their concatenation in the buffer from where rlen was, the rest of the buffer as it was, and rlen past them |
| `ReactorInvariant.RecvHasEffect` | src/Server.cpp:55-77 | recvCallback on a client that has not run one: exact new buffer, rlen, mask, kernel entry; it stops exactly when the printed buffer has no NUL |
| `ReactorInvariant.RecvKeepsServing` | src/Server.cpp:55-77 | recvCallback keeps the whole invariant |
| `ReactorInvariant.SendHasEffect` | src/Server.cpp:79-88 | sendCallback on a client with its message: the echo is written, then entry, registration, descriptor and connection are gone, and nothing else changes |
| `ReactorInvariant.SendKeepsServing` | src/Server.cpp:79-88 | sendCallback keeps the whole invariant |
| `ReactorInvariant.UpdateRegisters` | src/Epoll.cpp:21-31 | Updating a connection with an open descriptor registers it with its mask, in the epoll before or not, and changes nothing else |
| `ReactorInvariant.DeleteRemoves` | src/Epoll.cpp:32-38 | Deleting does nothing to a connection outside the epoll; any other loses its entry, registration and descriptor and is gone, and nothing else changes |
| `ReactorInvariant.LookupHits` | src/Epoll.cpp:45-51 | Every lookup of wait finds an existing, non-null connection |
| `ReactorInvariant.WaitIsFaithful` | src/Epoll.cpp:41-53 | The result of wait is the kernel's batch one for one and in order, each with its reported mask in revent, and nothing but revent changes |
| `ReactorInvariant.WaitKeepsInv` | src/Epoll.cpp:41-53 | After wait the invariant holds with the new batch, each of whose connections is live, registered under its descriptor, and comes up once |
| `ReactorInvariant.DispatchIsDefined` | src/EventLoop.cpp:16-22 | A dispatch never touches a deleted connection, never calls an empty std::function, and never runs a callback on a connection in the wrong state |
| `ReactorInvariant.InvokeIsLocal` | src/Epoll.cpp:55-63 | A callback leaves every other connection's fields, connMap entry and kernel entry as they were |
| `ReactorGuarantees.StartedServes` | src/Server.cpp:18-30 | The server as constructed satisfies the invariant |
| `ReactorGuarantees.StepKeepsInv` | src/EventLoop.cpp:11-24 | Every step of the event loop keeps the invariant unless it reads past the receive buffer, which happens exactly when a message of 2048 bytes has no NUL; a dispatch touches one connection |
| `ReactorGuarantees.HaltsByOverrun` | src/Server.cpp:73-76 | A run stops the server if and only if its last event is the receipt of 2048 bytes without a NUL |
| `ReactorGuarantees.RunKeepsInv` | src/EventLoop.cpp:9-25 | The invariant over every run, whatever the kernel reports and accepts |
| `ReactorGuarantees.AgreementAtEveryWait` | src/Epoll.cpp:19-39 | In every state reached from the constructed server: kernel interest list, non-null connMap entries and live registered connections agree, masks included, and the listener stays registered for input |
| `ReactorGuarantees.BatchIsSafe` | src/EventLoop.cpp:13-23 | While a batch is walked every connection not yet dispatched exists, is connMap's entry for its descriptor and has all fields as wait left them, even when a descriptor is closed and reused within the batch |
| `ReactorGuarantees.CallbacksAreBound` | src/Server.cpp:24-52 | IN in a mask implies a receive callback bound to that connection, OUT a send callback; only the listener accepts |
| `ReactorGuarantees.DispatchRuns` | src/EventLoop.cpp:16-22 | What a dispatch does, whatever ERR and HUP say: IN on the listener accepts, IN on a client receives its message, OUT without IN echoes and deletes, each with its exact effect; any other report does nothing |
| `ReactorGuarantees.ReadableGoesFirst` | src/EventLoop.cpp:16-22 | In any state, IN selects the receive callback even beside OUT, and OUT alone the send callback |
| `ReactorGuarantees.WhatCanBeReported` | src/Epoll.cpp:44 | Any registered descriptors with any masks inside theirs plus ERR and HUP may be reported in one batch, if and only if they are at most 16384 |
| `ReactorGuarantees.NeverStuck` | src/EventLoop.cpp:11-24 | From every state of the invariant the loop can wait, or there is an answer of the kernel with which the next dispatch runs |
| `ReactorGuarantees.Lifecycle` | src/Server.cpp:47-87 | A live client's callbacks are none (mask IN and ET) or recv (mask OUT); a deleted one's are recv then send, and it is in no batch |
| `ReactorGuarantees.NeverBackwards` | src/Server.cpp:47-87 | Along every run a connection's callbacks only grow, its send buffer stays as it was until it is deleted, and a deleted connection stays deleted |
| `ReactorGuarantees.DescriptorsAreOwned` | src/Connection.cpp:20-27 | Open sockets are exactly the descriptors of live clients, one each; every deletion closed one; successful accepts minus deletions are the live clients |
| `ReactorGuarantees.SessionsAreEchoed` | src/Server.cpp:55-87 | End to end for every finished session: as many bytes written as received, right up to and including the first NUL, all of them when none but the last is NUL |
| `ReactorGuarantees.GoneIsEchoed` | src/Server.cpp:79-88 | Every client that exists at some time and is deleted later has a closed socket on record that wrote back its message up to and including the first NUL and behind it the bytes of that client's own send buffer |
| `ReactorRuns.RunReports` | src/EventLoop.cpp:13 | What a run is told by wait is what epoll_wait returned, call by call |
| `ReactorRuns.EveryReportIsDispatched` | src/EventLoop.cpp:13-23 | Over any run, dispatches and what is still waiting in the batch are what was waiting before and what the kernel has reported |
| `ReactorRealization.ServeVisit` | src/Server.cpp:33-88 | From every state between two rounds, whatever other clients are doing, some run accepts any new client, receives its message in any chunks and closes its socket with the echo of it, everybody else still there; or it overruns the buffer, exactly when the message fills it without a NUL |
| `ReactorRealization.ServerServesEveryone` | src/Server.cpp:33-88 | For every list of clients with terminated messages, descriptors reused or not, some run from the constructed server closes exactly their sockets, in order, each with its message and echo |
| `ReactorRealization.ShortMessageComesBack` | src/Server.cpp:55-87 | From every state between two rounds, a new client with at most 2047 bytes and no NUL gets them back byte for byte |
| `ReactorRealization.OverrunHappens` | src/Server.cpp:73 | From every state between two rounds, every client with a message of 2048 bytes and no NUL can make the server read past the buffer |
| `ReactorRealization.OverrunExample` | src/Server.cpp:73 | The input: 2048 bytes of 7 from the first client |
| `ReactorRealization.EchoLossExample` | src/Server.cpp:81-84 | A run of the server that answers 0, 7 with 0 and the second byte of the client's send buffer as constructed |
| `ReactorRealization.ReuseInBatch` | src/EventLoop.cpp:13-23 | From every state with a client waiting for OUT, some run deletes it and gives its descriptor to a new connection within one batch |
| `CStrings.StrCpy` | src/Server.cpp:81 | The copy is the source up to and including its first NUL, and the rest of the destination is untouched |
| `CStrings.CopiedBytes` | src/Server.cpp:81 | Byte by byte: the source up to and including its first NUL, the old destination behind it, the length unchanged |
| `CStrings.TerminatedIff` | src/Server.cpp:73 | The filled receive buffer is a C string exactly when the message is shorter than the buffer or contains a NUL |
| `CStrings.EchoKeepsCertain` | src/Server.cpp:81-84 | Every echo has the message's length and its part up to and including the first NUL |
| `CStrings.EchoTail` | src/Server.cpp:81-84 | Behind the first NUL every echo has exactly what the send buffer held |
| `CStrings.NulFreeEcho` | src/Server.cpp:81-84 | A message with no NUL, shorter than the buffer, comes back byte for byte |
| `CStrings.ExactEchoIff` | src/Server.cpp:81-84 | The echo is the message whatever the send buffer held if and only if no byte before the last is NUL |
| `CStrings.EchoLosesTail` | src/Server.cpp:81-84 | Of the message 0, 7 the second byte comes back as the second byte the send buffer held, whatever its size and contents |
| `Connections.AcceptSocket` | src/Socket.cpp:55-61 | A new connection with its own buffers, owning the descriptor accept returned, -1 included |
| `Epolls.Epoll.UpdateConnection` | src/Epoll.cpp:19-39 | Add, modify and delete on the heap change connMap, the kernel list, inEpoll and the set of connections exactly as the model says |
| `Epolls.Epoll.Wait` | src/Epoll.cpp:41-53 | The loop over reported events yields the model's batch; its lookups never add to connMap |
| `Callbacks.Drain` | src/Server.cpp:59-71 | The receive loop terminates, for every way recv splits the input; each call asks for all the space left; it stops only when recv answers end of stream or nothing to read now (or a full buffer makes the request empty); and buffer, rlen and stream are as the concatenated chunks say |
| `Callbacks.AcceptCallback` | src/Server.cpp:33-53 | On the heap: the model's accept step, with a fresh connection and fresh buffers |
| `Callbacks.RecvCallback` | src/Server.cpp:55-77 | On the heap: the model's receive step, with the socket read until recv has nothing more to give |
| `Callbacks.SendCallback` | src/Server.cpp:79-88 | On the heap: the model's send step, the connection deleted inside its own callback |
| `EventLoops.EventLoop.DispatchAll` | src/EventLoop.cpp:14-23 | Walking a batch whose callbacks create and delete connections is a run of the model made of dispatches only, to the end of the batch unless one overruns, and only existing objects are touched |
| `EventLoops.EventLoop.Round` | src/EventLoop.cpp:13-23 | One result of wait followed by exactly as many dispatches as it has connections, fewer only when one overruns |
| `EventLoops.EventLoop.Start` | src/EventLoop.cpp:9-25 | The given number of rounds is a run of the model: its results of wait are the ones epoll_wait returned, one a round, and each reported connection is dispatched; it ends early if and only if its last event overruns the receive buffer; the invariant holds at its end |
| `Servers.Server.constructor` | src/Server.cpp:18-30 | The listening socket registered for edge-triggered input and bound to acceptCallback |
| `Servers.RunServer` | apps/test-main.cpp:4-9 | The whole program: the state of its heap is the state after a run of the model from the constructed server, with the given number of rounds and the reports epoll_wait gave; it stops early if and only if the run ends in an overrun; the sessions returned are the sockets closed in that run, and every one was echoed as stated |

## Left out

- Kernels.Kernel.Recv: does not model `recv` failing with anything but EAGAIN or EWOULDBLOCK, after which the code subtracts one from `rlen` and goes on.
- Partial or failed writes: the model records the bytes handed to `write`.
- `epoll_ctl` failing for lack of memory or watches, and `epoll_create`, `socket`, `bind`, `listen` failing (these end the process).
- `setNonBlocking`, `InetAddress`, the debug output of accept, and the timeout of `epoll_wait`.
- Accepting every pending client: the listening socket is edge-triggered with one accept per event, so this is not claimed.
- The null test at src/Server.cpp line 20, which reads `loop` before it is set, and the constructor `Socket(int, InetAddress*)`, which nothing uses.
- The memory of connections with descriptor -1, which the code never frees, and the reuse of a deleted object's address by the allocator.
- The second argument that `std::bind` fixes: there is one epoll, so `Bound` keeps only the handler and the connection.
- EventLoops.EventLoop.Start: runs a given number of rounds, where the code runs forever; every prefix of the endless loop is covered.
- Spawning of threads while the pool is being built: all workers start at the top of their loop, which every later state is reachable from.
- A caller's use of the pool after its destructor has returned is undefined in C++; the model lets such a call end the process as any call after `quit`.
- What a task computes, its exceptions and its arguments; a task is its identity. Tasks that never return are outside the progress theorems' reading, since the end of a running task is a step of the pool.
- The standalone programs apps/server.cpp and apps/client.cpp, and the database connector.
