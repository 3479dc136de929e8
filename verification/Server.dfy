/** Server.cpp:18-30 and test-main.cpp: the listening socket, and the program as a whole. */
module Servers {
  import opened Kernels
  import opened Connections
  import opened ReactorModel
  import opened ReactorInvariant
  import opened ReactorRuns
  import opened ReactorGuarantees
  import opened Epolls
  import opened Callbacks
  import opened EventLoops

  class Server {
    const servSock: Connection
    const loop: EventLoop
    ghost const init: ConnState

    /** `listenFd` is the descriptor that socket gave. */
    constructor (loop: EventLoop, listenFd: int)
      requires loop.epoll.OwnBuffers() && listenFd in loop.epoll.kernel.foreign
      requires loop.epoll.View() == Idle(loop.epoll.kernel.foreign)
      modifies loop.epoll, loop.epoll.kernel
      ensures this.loop == loop && servSock.fd == listenFd && NewState(init)
      ensures loop.epoll.View() == Started(old(loop.epoll.kernel.foreign), servSock, init)
      ensures loop.epoll.OwnBuffers()
      ensures old(loop.epoll.Repr) <= loop.epoll.Repr && fresh(loop.epoll.Repr - old(loop.epoll.Repr))
    {
      this.loop := loop;
      var sock;
      ghost var made;
      sock, made := NewSocket(loop.epoll, listenFd);
      Listen(sock, loop.epoll);
      servSock, init := sock, made;
    }
  }

  /** Server.cpp:22. */
  method NewSocket(epoll: Epoll, fd: int) returns (sock: Connection, ghost init: ConnState)
    requires epoll.OwnBuffers()
    modifies epoll`conns, epoll`Repr
    ensures fresh(sock) && sock.fd == fd && NewState(init) && sock in epoll.conns
    ensures epoll.View() == old(epoll.View()).(conns := old(epoll.View()).conns[sock := init])
    ensures epoll.OwnBuffers()
    ensures old(epoll.Repr) <= epoll.Repr && fresh(epoll.Repr - old(epoll.Repr))
  {
    sock := new Connection(fd);
    init := sock.State();
    assert epoll.View().conns == old(epoll.View()).conns;
    epoll.Adopt(sock);
  }

  /** Server.cpp:24-29. */
  method Listen(sock: Connection, epoll: Epoll)
    requires sock in epoll.conns && epoll.OwnBuffers()
    modifies sock, epoll`connMap, epoll`conns, epoll`gone, epoll.kernel
    ensures epoll.View() == ListenerRegistered(old(epoll.View()), sock)
    ensures epoll.Repr == old(epoll.Repr) && epoll.OwnBuffers()
  {
    SetEvent(sock, epoll, {IN, ET});
    epoll.UpdateConnection(sock, ACTION_UPDATE);
    epoll.SetRecvCallback(sock, AcceptHandler);
  }

  /** A new event loop on a new kernel. */
  method NewLoop(foreign: set<int>) returns (loop: EventLoop)
    ensures fresh(loop) && fresh(loop.epoll.Repr) && loop.epoll.OwnBuffers()
    ensures loop.epoll.View() == Idle(foreign)
  {
    var kernel := new Kernel(foreign);
    var epoll := new Epoll(kernel);
    loop := new EventLoop(epoll);
    assert epoll.View().conns == map[];
  }

  /** A server on a new event loop. */
  method Boot(foreign: set<int>, listenFd: int) returns (server: Server)
    requires (forall fd :: fd in foreign ==> fd >= 0) && listenFd in foreign
    ensures fresh(server.loop.epoll.Repr) && server.loop.epoll.OwnBuffers()
    ensures server.loop.epoll.View() == Started(foreign, server.servSock, server.init)
    ensures server.servSock.fd == listenFd && NewState(server.init)
    ensures Inv(server.loop.epoll.View(), server.servSock)
  {
    var loop := NewLoop(foreign);
    server := new Server(loop, listenFd);
    StartedServes(foreign, server.servSock, server.init);
  }

  /** main: an event loop, a server on it, and `rounds` rounds of the loop. What has happened
      on the heap is the run of the model given by what the kernel reported; it has all its
      rounds unless a message filled the receive buffer without a NUL. Every session closed
      wrote as many bytes as it received, right up to and including the first NUL, and all of
      them when no byte but the last is NUL. */
  method RunServer(foreign: set<int>, listenFd: int, rounds: nat)
    returns (server: Server, defined: bool, sessions: seq<Stream>, ghost run: seq<Event>)
    requires (forall fd :: fd in foreign ==> fd >= 0) && listenFd in foreign
    ensures server.servSock.fd == listenFd && CanRun(foreign, server.servSock, server.init, run)
    ensures server.loop.epoll.View() == After(Started(foreign, server.servSock, server.init), run)
    ensures server.loop.epoll.kernel.reports == Reports(run)
    ensures |Reports(run)| <= rounds && (defined ==> |Reports(run)| == rounds)
    ensures defined ==> |run| == rounds + EventCount(Reports(run))
    ensures !defined <==> EndsInOverrun(Started(foreign, server.servSock, server.init), run)
    ensures sessions == After(Started(foreign, server.servSock, server.init), run).closed
    ensures forall st :: st in sessions ==> WellEchoed(st)
  {
    server := Boot(foreign, listenFd);
    ghost var started := server.loop.epoll.View();
    defined, run := server.loop.Start(rounds, server.servSock);
    sessions := server.loop.epoll.kernel.closed;
    assert sessions == server.loop.epoll.View().closed;
    RunEchoesWell(started, server.servSock, run);
  }
}
