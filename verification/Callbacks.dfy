/** Server.cpp:33-88: the callbacks of the echo server. */
module Callbacks {
  import opened Kernels
  import opened CStrings
  import opened Connections
  import opened ReactorModel
  import opened ReactorInvariant
  import opened Epolls

  /** Records that a callback has begun for `conn`. */
  method LogCall(conn: Connection, epoll: Epoll, h: Handler)
    requires conn in epoll.conns
    modifies conn`calls
    ensures epoll.View() == Logged(old(epoll.View()), conn, h)
  {
    conn.calls := conn.calls + [h];
    assert epoll.View().conns == old(epoll.View()).conns[conn := conn.State()];
  }

  method SetEvent(conn: Connection, epoll: Epoll, flags: Mask)
    requires conn in epoll.conns
    modifies conn`event
    ensures epoll.View() == WithEvent(old(epoll.View()), conn, flags)
  {
    conn.SetEvent(flags);
    assert epoll.View().conns == old(epoll.View()).conns[conn := conn.State()];
  }

  /** Server.cpp:37: the new connection joins those that exist. */
  method AcceptClient(epoll: Epoll) returns (client: Connection, ghost init: ConnState)
    requires epoll.OwnBuffers()
    modifies epoll`conns, epoll`Repr, epoll.kernel`streams, epoll.kernel`accepts
    ensures NewState(init) && client !in old(epoll.conns) && client !in epoll.gone
    ensures client.fd == -1
         || (client.fd >= 0 && client.fd !in epoll.kernel.foreign && client.fd !in old(epoll.kernel.streams))
    ensures epoll.View() == Accepted(old(epoll.View()), client, init)
    ensures epoll.conns == old(epoll.conns) + {client} && epoll.OwnBuffers()
    ensures epoll.Repr == old(epoll.Repr) + {client, client.rbuffer, client.wbuffer}
    ensures fresh({client, client.rbuffer, client.wbuffer})
  {
    client := AcceptSocket(epoll.kernel);
    init := client.State();
    assert epoll.View().conns == old(epoll.View()).conns;
    epoll.Adopt(client);
  }

  /** Server.cpp:33-53. */
  method AcceptCallback(conn: Connection, epoll: Epoll) returns (ghost client: Connection, ghost init: ConnState)
    requires conn in epoll.conns && epoll.OwnBuffers()
    modifies conn`calls, epoll`connMap, epoll`conns, epoll`gone, epoll`Repr, epoll.kernel
    ensures NewState(init)
    ensures client.fd == -1
         || (client.fd >= 0 && client.fd !in old(epoll.kernel.foreign) && client.fd !in old(epoll.kernel.streams))
    ensures epoll.View() == AcceptStep(old(epoll.View()), conn, client, init)
    ensures epoll.conns == old(epoll.conns) + {client} && epoll.OwnBuffers()
    ensures epoll.Repr == old(epoll.Repr) + {client, client.rbuffer, client.wbuffer}
    ensures fresh({client, client.rbuffer, client.wbuffer})
  {
    LogCall(conn, epoll, AcceptHandler);
    var clientConn;
    clientConn, init := AcceptClient(epoll);
    client := clientConn;
    RegisterClient(clientConn, epoll);
  }

  /** Server.cpp:47-52. */
  method RegisterClient(client: Connection, epoll: Epoll)
    requires client in epoll.conns && epoll.OwnBuffers()
    modifies client, epoll`connMap, epoll`conns, epoll`gone, epoll.kernel
    ensures epoll.View() == ClientRegistered(old(epoll.View()), client)
    ensures epoll.conns == old(epoll.conns) && epoll.Repr == old(epoll.Repr) && epoll.OwnBuffers()
  {
    SetEvent(client, epoll, {ET, IN});
    epoll.UpdateConnection(client, ACTION_UPDATE);
    epoll.SetRecvCallback(client, RecvHandler);
    epoll.SetSendCallback(client, SendHandler);
  }

  lemma FlattenSnoc(chunks: seq<seq<byte>>, chunk: seq<byte>)
    ensures Flatten(chunks + [chunk]) == Flatten(chunks) + chunk
  {
  }

  lemma SplitAt(buffer: seq<byte>, i: nat, j: nat)
    requires i <= j <= |buffer|
    ensures buffer == buffer[..i] + buffer[i..j] + buffer[j..]
  {
  }

  /** The calls of recv that deliver `chunks` one after another, each asking for all the space
      left. */
  function Calls(fd: int, space: nat, chunks: seq<seq<byte>>): seq<RecvCall>
    requires |Flatten(chunks)| <= space
  {
    if chunks == [] then []
    else
      var init := chunks[..|chunks| - 1];
      var chunk := chunks[|chunks| - 1];
      Calls(fd, space, init) + [RecvCall(fd, space - |Flatten(init)|, |chunk|)]
  }

  lemma CallsSnoc(fd: int, space: nat, chunks: seq<seq<byte>>, chunk: seq<byte>)
    requires |Flatten(chunks)| + |chunk| <= space
    ensures |Flatten(chunks + [chunk])| <= space
    ensures Calls(fd, space, chunks + [chunk])
         == Calls(fd, space, chunks) + [RecvCall(fd, space - |Flatten(chunks)|, |chunk|)]
  {
  }

  /** The call that ends the loop: end of stream or nothing to read now, which is also the
      answer to an empty request. */
  predicate NothingMore(last: seq<RecvCall>, fd: int, space: nat) {
    |last| == 1 && last[0].result <= 0 && last[0] == RecvCall(fd, space, last[0].result)
  }

  /** The receive loop asks for all the space left, takes the chunks, and stops only when recv
      has nothing more to give. */
  ghost predicate ReadUntilNothing(before: seq<RecvCall>, after: seq<RecvCall>, fd: int, space: nat,
                                   chunks: seq<seq<byte>>)
    requires |Flatten(chunks)| <= space
  {
    exists last :: NothingMore(last, fd, space - |Flatten(chunks)|) && after == before + Calls(fd, space, chunks) + last
  }

  /** Server.cpp:59-71: recv until there is nothing more, at the end of the bytes so far. The
      loop ends because the space left shrinks and a request for no bytes gives none. */
  method Drain(conn: Connection, kernel: Kernel) returns (ghost chunks: seq<seq<byte>>)
    requires conn.fd in kernel.streams
    requires conn.rbuffer.Length == RECV_BUFFER_LENGTH && 0 <= conn.rlen <= RECV_BUFFER_LENGTH
    modifies conn`rlen, conn.rbuffer, kernel`streams, kernel`errno, kernel`recvs
    ensures LegalChunks(chunks, RECV_BUFFER_LENGTH - old(conn.rlen))
    ensures ReadUntilNothing(old(kernel.recvs), kernel.recvs, conn.fd, RECV_BUFFER_LENGTH - old(conn.rlen), chunks)
    ensures conn.rlen == old(conn.rlen) + |Flatten(chunks)|
    ensures conn.rbuffer[..] == Stored(old(conn.rbuffer[..]), old(conn.rlen), Flatten(chunks))
    ensures kernel.streams == Taken(old(kernel.streams), conn.fd, Flatten(chunks))
  {
    chunks := [];
    ghost var buffer, at := conn.rbuffer[..], conn.rlen;
    ghost var space := RECV_BUFFER_LENGTH - at;
    ghost var streams, recvs := kernel.streams, kernel.recvs;
    NothingTaken(buffer, at, streams, conn.fd);
    ghost var last: seq<RecvCall> := [];
    var more := true;
    while more
      invariant LegalChunks(chunks, space) && conn.rlen == at + |Flatten(chunks)|
      invariant conn.rbuffer[..] == Stored(buffer, at, Flatten(chunks))
      invariant kernel.streams == Taken(streams, conn.fd, Flatten(chunks))
      invariant kernel.recvs == recvs + Calls(conn.fd, space, chunks) + last
      invariant if more then last == [] else NothingMore(last, conn.fd, space - |Flatten(chunks)|)
      decreases more, RECV_BUFFER_LENGTH - conn.rlen
    {
      ghost var chunk, answer;
      more, chunk, answer := ReceiveOnce(conn, kernel);
      if more {
        OneMoreChunk(buffer, at, streams, conn.fd, chunks, chunk);
        CallsSnoc(conn.fd, space, chunks, chunk);
        chunks := chunks + [chunk];
      } else {
        last := [RecvCall(conn.fd, space - |Flatten(chunks)|, answer)];
      }
    }
  }

  lemma NothingTaken(buffer: seq<byte>, at: nat, streams: map<int, Stream>, fd: int)
    requires at <= |buffer| && fd in streams
    ensures Stored(buffer, at, []) == buffer && Taken(streams, fd, []) == streams
  {
    assert streams[fd].input + [] == streams[fd].input;
  }

  lemma OneMoreChunk(buffer: seq<byte>, at: nat, streams: map<int, Stream>, fd: int, chunks: seq<seq<byte>>,
                     chunk: seq<byte>)
    requires at + |Flatten(chunks)| + |chunk| <= |buffer| && fd in streams
    requires chunk != [] && LegalChunks(chunks, |buffer| - at)
    ensures LegalChunks(chunks + [chunk], |buffer| - at)
    ensures |Flatten(chunks + [chunk])| == |Flatten(chunks)| + |chunk|
    ensures Stored(Stored(buffer, at, Flatten(chunks)), at + |Flatten(chunks)|, chunk)
         == Stored(buffer, at, Flatten(chunks + [chunk]))
    ensures Taken(Taken(streams, fd, Flatten(chunks)), fd, chunk) == Taken(streams, fd, Flatten(chunks + [chunk]))
  {
    FlattenSnoc(chunks, chunk);
    StoredTwice(buffer, at, Flatten(chunks), chunk);
    var input := streams[fd].input;
    assert input + Flatten(chunks) + chunk == input + (Flatten(chunks) + chunk);
  }

  /** Server.cpp:62-70, one call of recv; `more` is false at the break. */
  method ReceiveOnce(conn: Connection, kernel: Kernel) returns (more: bool, ghost chunk: seq<byte>, ghost answer: int)
    requires conn.fd in kernel.streams
    requires conn.rbuffer.Length == RECV_BUFFER_LENGTH && 0 <= conn.rlen <= RECV_BUFFER_LENGTH
    modifies conn`rlen, conn.rbuffer, kernel`streams, kernel`errno, kernel`recvs
    ensures kernel.recvs == old(kernel.recvs) + [RecvCall(conn.fd, RECV_BUFFER_LENGTH - old(conn.rlen), answer)]
    ensures !more ==> answer <= 0 && conn.rlen == old(conn.rlen) && conn.rbuffer[..] == old(conn.rbuffer[..])
    ensures !more ==> kernel.streams == old(kernel.streams)
    ensures more ==> answer == |chunk| > 0 && conn.rlen == old(conn.rlen) + |chunk| <= RECV_BUFFER_LENGTH
    ensures more ==> conn.rbuffer[..] == Stored(old(conn.rbuffer[..]), old(conn.rlen), chunk)
    ensures more ==> kernel.streams == Taken(old(kernel.streams), conn.fd, chunk)
  {
    var rlen := conn.rlen;
    var recvBytes := kernel.Recv(conn.fd, conn.rbuffer, rlen, RECV_BUFFER_LENGTH - rlen);
    more, chunk, answer := true, [], recvBytes;
    if recvBytes == 0 || (recvBytes < 0 && (kernel.errno == EAGAIN || kernel.errno == EWOULDBLOCK)) {
      more := false;
    } else {
      conn.rlen := rlen + recvBytes;
      chunk := conn.rbuffer[rlen..rlen + recvBytes];
      SplitAt(conn.rbuffer[..], rlen, rlen + recvBytes);
      assert conn.rbuffer[..][..rlen] == old(conn.rbuffer[..])[..rlen];
      assert conn.rbuffer[..][rlen + recvBytes..] == old(conn.rbuffer[..])[rlen + recvBytes..];
    }
  }

  /** Server.cpp:55-77. `defined` is false when printf reads past the receive buffer. */
  method RecvCallback(conn: Connection, epoll: Epoll) returns (defined: bool, ghost chunks: seq<seq<byte>>)
    requires conn in epoll.conns && epoll.OwnBuffers() && conn.fd in epoll.kernel.streams && !epoll.halted
    requires conn.rbuffer.Length == RECV_BUFFER_LENGTH && 0 <= conn.rlen <= RECV_BUFFER_LENGTH
    modifies conn, conn.rbuffer, epoll`connMap, epoll`conns, epoll`gone, epoll`halted, epoll.kernel
    ensures LegalChunks(chunks, RECV_BUFFER_LENGTH - old(conn.rlen))
    ensures ReadUntilNothing(old(epoll.kernel.recvs), epoll.kernel.recvs, conn.fd,
                           RECV_BUFFER_LENGTH - old(conn.rlen), chunks)
    ensures epoll.View() == RecvStep(old(epoll.View()), conn, chunks) && epoll.halted == !defined
    ensures epoll.Repr == old(epoll.Repr) && epoll.OwnBuffers()
  {
    chunks := FillBuffer(conn, epoll);
    defined := Print(conn, epoll);
  }

  /** Server.cpp:73-76. */
  method Print(conn: Connection, epoll: Epoll) returns (defined: bool)
    requires conn in epoll.conns && epoll.OwnBuffers() && !epoll.halted
    modifies conn`event, conn`inEpoll, epoll`connMap, epoll`conns, epoll`gone, epoll`halted
    modifies epoll.kernel`interest, epoll.kernel`foreign, epoll.kernel`streams, epoll.kernel`closed
    ensures epoll.View() == Printed(old(epoll.View()), conn) && epoll.halted == !defined
    ensures epoll.Repr == old(epoll.Repr) && epoll.OwnBuffers()
    ensures epoll.kernel.recvs == old(epoll.kernel.recvs)
  {
    // printf("recv from client: %s", rbuffer)
    defined := 0 in conn.rbuffer[..];
    if defined {
      SetEvent(conn, epoll, {OUT});
      epoll.UpdateConnection(conn, ACTION_UPDATE);
    } else {
      epoll.Halt();
    }
  }

  /** Server.cpp:57-72. */
  method FillBuffer(conn: Connection, epoll: Epoll) returns (ghost chunks: seq<seq<byte>>)
    requires conn in epoll.conns && epoll.OwnBuffers() && conn.fd in epoll.kernel.streams
    requires conn.rbuffer.Length == RECV_BUFFER_LENGTH && 0 <= conn.rlen <= RECV_BUFFER_LENGTH
    modifies conn`calls, conn`rlen, conn.rbuffer
    modifies epoll.kernel`streams, epoll.kernel`errno, epoll.kernel`recvs
    ensures LegalChunks(chunks, RECV_BUFFER_LENGTH - old(conn.rlen))
    ensures ReadUntilNothing(old(epoll.kernel.recvs), epoll.kernel.recvs, conn.fd,
                           RECV_BUFFER_LENGTH - old(conn.rlen), chunks)
    ensures epoll.View() == Filling(old(epoll.View()), conn, chunks)
    ensures epoll.conns == old(epoll.conns) && epoll.Repr == old(epoll.Repr) && epoll.OwnBuffers()
  {
    LogCall(conn, epoll, RecvHandler);
    Clear(conn, epoll);
    chunks := ReadAll(conn, epoll);
  }

  /** Server.cpp:59. */
  method Clear(conn: Connection, epoll: Epoll)
    requires conn in epoll.conns && epoll.OwnBuffers()
    modifies conn.rbuffer
    ensures epoll.View() == Cleared(old(epoll.View()), conn)
  {
    conn.RBufferClear();
    assert epoll.View().conns == old(epoll.View()).conns[conn := conn.State()];
  }

  /** Server.cpp:60-72. */
  method ReadAll(conn: Connection, epoll: Epoll) returns (ghost chunks: seq<seq<byte>>)
    requires conn in epoll.conns && epoll.OwnBuffers() && conn.fd in epoll.kernel.streams
    requires conn.rbuffer.Length == RECV_BUFFER_LENGTH && 0 <= conn.rlen <= RECV_BUFFER_LENGTH
    modifies conn`rlen, conn.rbuffer, epoll.kernel`streams, epoll.kernel`errno, epoll.kernel`recvs
    ensures LegalChunks(chunks, RECV_BUFFER_LENGTH - old(conn.rlen))
    ensures ReadUntilNothing(old(epoll.kernel.recvs), epoll.kernel.recvs, conn.fd,
                           RECV_BUFFER_LENGTH - old(conn.rlen), chunks)
    ensures epoll.View() == Read(old(epoll.View()), conn, chunks)
  {
    chunks := Drain(conn, epoll.kernel);
    DrainKeepsBytes(old(conn.rbuffer[..]), old(conn.rlen), chunks);
    assert epoll.View().conns == old(epoll.View()).conns[conn := conn.State()];
  }

  /** Server.cpp:79-88. */
  method SendCallback(conn: Connection, epoll: Epoll)
    requires conn in epoll.conns && epoll.OwnBuffers()
    requires CanSend(epoll.View(), conn)
    modifies conn, conn.wbuffer, epoll`connMap, epoll`conns, epoll`gone, epoll.kernel
    ensures epoll.View() == SendStep(old(epoll.View()), conn)
    ensures epoll.Repr == old(epoll.Repr) && epoll.OwnBuffers()
  {
    WriteEcho(conn, epoll);
    epoll.UpdateConnection(conn, ACTION_DELETE);
  }

  /** Server.cpp:81-84. */
  method WriteEcho(conn: Connection, epoll: Epoll)
    requires conn in epoll.conns && epoll.OwnBuffers()
    requires CanSend(epoll.View(), conn)
    modifies conn`calls, conn`wlen, conn.wbuffer, epoll.kernel`streams
    ensures epoll.View() == Sent(old(epoll.View()), conn)
  {
    conn.calls := conn.calls + [SendHandler];
    StrCpy(conn.wbuffer, conn.rbuffer);
    conn.wlen := conn.rlen;
    epoll.kernel.Write(conn.fd, conn.wbuffer, conn.wlen);
    assert epoll.View().conns == old(epoll.View()).conns[conn := conn.State()];
  }
}
