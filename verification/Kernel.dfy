/** The part of the operating system the reactor talks to: epoll, accept, recv, write and
    close. The contracts of the methods are what the reactor may assume; each body picks an
    arbitrary outcome among those its contract allows. */
module Kernels {

  newtype byte = x: int | 0 <= x < 256

  datatype Flag = IN | OUT | ERR | HUP | ET

  type Mask = set<Flag>

  /** struct epoll_event with the descriptor kept in its data field. */
  datatype EpollEvent = EpollEvent(dataFd: int, events: Mask)

  datatype EpollOp = ADD | MOD | DEL

  datatype Errno = EAGAIN | EWOULDBLOCK | EOTHER

  /** The bytes recv has delivered from a socket and the bytes handed to write on it. */
  datatype Stream = Stream(input: seq<byte>, output: seq<byte>)

  /** One call of recv: the descriptor, the bytes asked for and the result, with -1 for
      nothing to read now. */
  datatype RecvCall = RecvCall(fd: int, len: nat, result: int)

  /** epoll_ctl on the interest list: an addition is refused for a descriptor that is not
      open or already there, a change for one that is not there. */
  function CtlAdd(interest: map<int, EpollEvent>, open: bool, fd: int, event: EpollEvent): map<int, EpollEvent> {
    if open && fd !in interest then interest[fd := event] else interest
  }

  function CtlMod(interest: map<int, EpollEvent>, fd: int, event: EpollEvent): map<int, EpollEvent> {
    if fd in interest then interest[fd := event] else interest
  }

  class Kernel {
    /** Open descriptors that accept did not give: the listening socket, the epoll instance
        and the like. */
    var foreign: set<int>
    /** Sockets handed out by accept and not yet closed. */
    var streams: map<int, Stream>
    /** The interest list of the epoll instance. */
    var interest: map<int, EpollEvent>
    /** Streams of the closed sockets, oldest first. */
    var closed: seq<Stream>
    /** Number of successful accepts. */
    var accepts: nat
    var errno: Errno
    /** What epoll_wait has returned, call by call. */
    var reports: seq<seq<EpollEvent>>
    /** The calls of recv, oldest first. */
    var recvs: seq<RecvCall>

    predicate Open(fd: int)
      reads this
    {
      fd in foreign || fd in streams
    }

    constructor (foreign: set<int>)
      ensures this.foreign == foreign
      ensures streams == map[] && interest == map[] && closed == [] && accepts == 0
      ensures reports == [] && recvs == []
    {
      this.foreign := foreign;
      streams, interest, closed, accepts, errno := map[], map[], [], 0, EAGAIN;
      reports, recvs := [], [];
    }

    method EpollCtl(op: EpollOp, fd: int, event: EpollEvent)
      modifies this`interest
      ensures interest == match op
                          case ADD => CtlAdd(old(interest), Open(fd), fd, event)
                          case MOD => CtlMod(old(interest), fd, event)
                          case DEL => old(interest) - {fd}
    {
      match op
      case ADD => interest := CtlAdd(interest, Open(fd), fd, event);
      case MOD => interest := CtlMod(interest, fd, event);
      case DEL => interest := interest - {fd};
    }

    /** Each registered descriptor is reported at most once, with the data it was registered
        with and a mask inside the registered one plus ERR and HUP. A failed or timed-out
        epoll_wait is an empty batch. */
    method EpollWait(maxEvents: nat) returns (events: seq<EpollEvent>, ghost fds: seq<int>)
      modifies this`reports
      ensures reports == old(reports) + [events]
      ensures |events| == |fds| <= maxEvents
      ensures forall i, j :: 0 <= i < j < |fds| ==> fds[i] != fds[j]
      ensures forall i :: 0 <= i < |fds| ==>
                fds[i] in interest
                && events[i].dataFd == interest[fds[i]].dataFd
                && events[i].events <= interest[fds[i]].events + {ERR, HUP}
    {
      var reported: seq<int> := [];
      events := [];
      var tries: int := *;
      while tries > 0
        invariant |events| == |reported| <= maxEvents
        invariant forall i, j :: 0 <= i < j < |reported| ==> reported[i] != reported[j]
        invariant forall i :: 0 <= i < |reported| ==>
                    reported[i] in interest
                    && events[i].dataFd == interest[reported[i]].dataFd
                    && events[i].events <= interest[reported[i]].events + {ERR, HUP}
      {
        tries := tries - 1;
        var fd: int := *;
        var mask: Mask := *;
        if |events| < maxEvents && fd in interest && fd !in reported && mask <= interest[fd].events + {ERR, HUP} {
          reported := reported + [fd];
          events := events + [EpollEvent(interest[fd].dataFd, mask)];
        }
      }
      fds := reported;
      reports := reports + [events];
    }

    /** -1, or a descriptor that is not open now; one closed a moment ago may come back. */
    method Accept() returns (fd: int)
      modifies this`streams, this`accepts
      ensures fd == -1 || (fd >= 0 && fd !in foreign && fd !in old(streams))
      ensures fd == -1 ==> streams == old(streams) && accepts == old(accepts)
      ensures fd != -1 ==> streams == old(streams)[fd := Stream([], [])] && accepts == old(accepts) + 1
    {
      fd := *;
      if fd < 0 || Open(fd) {
        fd := -1;
      } else {
        streams := streams[fd := Stream([], [])];
        accepts := accepts + 1;
      }
    }

    /** Some bytes, end of stream, or nothing to read now. A request for no bytes gives 0. */
    method Recv(fd: int, buffer: array<byte>, offset: nat, len: nat) returns (r: int)
      requires fd in streams && offset + len <= buffer.Length
      modifies this`streams, this`errno, this`recvs, buffer
      ensures recvs == old(recvs) + [RecvCall(fd, len, r)]
      ensures -1 <= r <= len && (len == 0 ==> r == 0)
      ensures r == -1 ==> errno == EAGAIN || errno == EWOULDBLOCK
      ensures r <= 0 ==> streams == old(streams) && buffer[..] == old(buffer[..])
      ensures r > 0 ==>
                streams == old(streams)[fd :=
                  Stream(old(streams[fd].input) + buffer[offset..offset + r], old(streams[fd].output))]
      ensures r > 0 ==> buffer[..offset] == old(buffer[..offset]) && buffer[offset + r..] == old(buffer[offset + r..])
    {
      r := *;
      if len == 0 {
        r := 0;
      } else if r < 0 || r > len {
        r := -1;
        var wouldBlock: bool := *;
        errno := if wouldBlock then EWOULDBLOCK else EAGAIN;
      } else if r > 0 {
        for i := 0 to r
          modifies buffer
          invariant buffer[..offset] == old(buffer[..offset])
          invariant buffer[offset + r..] == old(buffer[offset + r..])
        {
          var b: byte := *;
          buffer[offset + i] := b;
        }
        streams := streams[fd := Stream(streams[fd].input + buffer[offset..offset + r], streams[fd].output)];
      }
      recvs := recvs + [RecvCall(fd, len, r)];
    }

    /** Records the bytes handed over. */
    method Write(fd: int, buffer: array<byte>, len: nat)
      requires fd in streams && len <= buffer.Length
      modifies this`streams
      ensures streams == old(streams)[fd := Stream(old(streams[fd].input), old(streams[fd].output) + buffer[..len])]
    {
      streams := streams[fd := Stream(streams[fd].input, streams[fd].output + buffer[..len])];
    }

    /** Closing an open descriptor also takes it off the interest list; any other is refused. */
    method Close(fd: int)
      modifies this`foreign, this`streams, this`interest, this`closed
      ensures foreign == old(foreign) - {fd} && streams == old(streams) - {fd}
      ensures interest == if old(Open(fd)) then old(interest) - {fd} else old(interest)
      ensures closed == old(closed) + (if fd in old(streams) then [old(streams[fd])] else [])
    {
      if fd in streams {
        closed := closed + [streams[fd]];
      }
      if Open(fd) {
        interest := interest - {fd};
      }
      foreign, streams := foreign - {fd}, streams - {fd};
    }
  }
}
