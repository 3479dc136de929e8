/** Connection.hpp and Connection.cpp: one socket with its epoll masks, buffers and
    callbacks. */
module Connections {
  import opened Kernels

  const RECV_BUFFER_LENGTH: nat := 2048
  const SEND_BUFFER_LENGTH: nat := 2048

  /** The functions Server.cpp binds as callbacks. */
  datatype Handler = AcceptHandler | RecvHandler | SendHandler

  /** std::bind(f, conn, epoll); Unset is a std::function nobody has assigned. */
  datatype Callback = Unset | Bound(handler: Handler, conn: Connection)

  /** The fields of a connection, the buffers by content, and the callbacks run so far. */
  datatype ConnState = ConnState(
    inEpoll: bool,
    event: EpollEvent,
    revent: EpollEvent,
    rbuffer: seq<byte>,
    rlen: int,
    wbuffer: seq<byte>,
    wlen: int,
    recvCallback: Callback,
    sendCallback: Callback,
    calls: seq<Handler>)

  class Connection {
    const fd: int
    var inEpoll: bool
    var event: EpollEvent
    var revent: EpollEvent
    const rbuffer: array<byte>
    const wbuffer: array<byte>
    var rlen: int
    var wlen: int
    var recvCallback: Callback
    var sendCallback: Callback
    /** The callbacks that have run for this connection, oldest first. */
    var calls: seq<Handler>

    ghost function State(): ConnState
      reads this, rbuffer, wbuffer
    {
      ConnState(inEpoll, event, revent, rbuffer[..], rlen, wbuffer[..], wlen, recvCallback, sendCallback, calls)
    }

    /** Neither the buffers nor the masks start with any particular content. */
    constructor (fd: int)
      ensures this.fd == fd && NewState(State())
      ensures fresh(rbuffer) && fresh(wbuffer) && rbuffer != wbuffer
    {
      this.fd := fd;
      inEpoll, rlen, wlen := false, 0, 0;
      event, revent := *, *;
      rbuffer := new byte[RECV_BUFFER_LENGTH];
      wbuffer := new byte[SEND_BUFFER_LENGTH];
      recvCallback, sendCallback := Unset, Unset;
      calls := [];
    }

    method SetEvent(flags: Mask)
      modifies this`event
      ensures event == EpollEvent(fd, flags)
    {
      event := EpollEvent(fd, flags);
    }

    method SetREvent(flags: Mask)
      modifies this`revent
      ensures revent == EpollEvent(fd, flags)
    {
      revent := EpollEvent(fd, flags);
    }

    method RBufferClear()
      modifies rbuffer
      ensures rbuffer[..] == seq(rbuffer.Length, _ => 0)
    {
      forall i | 0 <= i < rbuffer.Length {
        rbuffer[i] := 0;
      }
    }
  }

  /** A connection as its constructor leaves it. */
  predicate NewState(s: ConnState) {
    && !s.inEpoll && s.rlen == 0 && s.wlen == 0
    && s.recvCallback == Unset && s.sendCallback == Unset && s.calls == []
    && |s.rbuffer| == RECV_BUFFER_LENGTH && |s.wbuffer| == SEND_BUFFER_LENGTH
  }

  /** Socket.cpp:55-61: a failed accept still makes a connection, with descriptor -1. */
  method AcceptSocket(kernel: Kernel) returns (conn: Connection)
    modifies kernel`streams, kernel`accepts
    ensures fresh(conn) && fresh(conn.rbuffer) && fresh(conn.wbuffer) && conn.rbuffer != conn.wbuffer
    ensures NewState(conn.State())
    ensures conn.fd == -1 || (conn.fd >= 0 && conn.fd !in kernel.foreign && conn.fd !in old(kernel.streams))
    ensures kernel.streams == if conn.fd == -1 then old(kernel.streams)
      else old(kernel.streams)[conn.fd := Stream([], [])]
    ensures kernel.accepts == if conn.fd == -1 then old(kernel.accepts) else old(kernel.accepts) + 1
  {
    var clientFd := kernel.Accept();
    conn := new Connection(clientFd);
  }
}
