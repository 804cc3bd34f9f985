/** A client of RpcChannel.cpp and the loop of RpcServer.cpp at the two ends of a connection, whatever
    chunks the transfers on either side come in. */
module RpcSessions {
  import opened Options
  import opened RpcFraming

  const REQUEST: Byte := 1
  const RESPONSE: Byte := 2

  type Handler = seq<Byte> -> Option<seq<Byte>>

  /** What the peer makes of a payload: the reader takes its length modulo 256. */
  function Heard(payload: seq<Byte>): seq<Byte> {
    payload[..|payload| % 256]
  }

  // Everything sent has been read
  predicate InSync(client: TcpConnection, server: TcpConnection)
    reads client, server
  {
    client.incoming == [] && server.incoming == []
  }

  predicate Short(payload: seq<Byte>) {
    1 <= |payload| <= 255
  }

  /** A request that reads back, and so does its answer if it has one. */
  predicate Clean(request: seq<Byte>, handle: Handler) {
    Short(request) && (handle(request).Some? ==> Short(handle(request).value))
  }

  predicate AllClean(requests: seq<seq<Byte>>, handle: Handler) {
    forall k :: 0 <= k < |requests| ==> Clean(requests[k], handle)
  }

  lemma HeardFrame(kind: Byte, payload: seq<Byte>)
    requires |payload| < MAX_LENGTH
    ensures Decode(Frame(kind, payload), kind) ==
      if Heard(payload) == [] then BadMessage(payload) else Message(Heard(payload), payload[|payload| % 256..])
  {
    DecodeFrame(kind, payload, []);
    assert Frame(kind, payload) + [] == Frame(kind, payload) && payload + [] == payload;
    assert payload[|payload| % 256..] + [] == payload[|payload| % 256..];
  }

  // The reader's half of one message
  method Hear(reader: RpcCodec, conn: TcpConnection, kind: Byte, ghost payload: seq<Byte>)
    returns (heard: Option<seq<Byte>>)
    requires |payload| < MAX_LENGTH
    modifies reader, conn`incoming, conn`script
    ensures old(conn.incoming) == Frame(kind, payload) && heard.Some? ==>
      heard.value == Heard(payload) != [] && conn.incoming == payload[|payload| % 256..]
    ensures old(conn.incoming) == Frame(kind, payload) && Short(payload) && Lasts(old(conn.script), |payload| + 3) ==>
      heard.Some? && Lasts(conn.script, Moves(old(conn.script)) - |payload| - 3)
  {
    HeardFrame(kind, payload);
    CutExactly(payload);
    var r := reader.ReadMessage(conn, kind);
    if !r.Got? { return None; }
    heard := Some(reader.buffer[..]);
  }

  /** One message from one end to the other.  It arrives if it is short and both connections last. */
  method Transmit(writer: RpcCodec, from: TcpConnection, reader: RpcCodec, to: TcpConnection,
                  kind: Byte, payload: seq<Byte>) returns (heard: Option<seq<Byte>>)
    requires from != to && writer != reader
    modifies writer, from`outgoing, from`script, reader, to`incoming, to`script
    ensures old(to.incoming) == [] && heard.Some? ==>
      && heard.value == Heard(payload) != [] && to.incoming == payload[|payload| % 256..]
      && from.outgoing == old(from.outgoing) + Frame(kind, payload) && |payload| < MAX_LENGTH
    ensures
      (&& old(to.incoming) == [] && Short(payload)
       && Lasts(old(from.script), |payload| + 3) && Lasts(old(to.script), |payload| + 3)) ==>
      && heard.Some?
      && Lasts(from.script, Moves(old(from.script)) - |payload| - 3)
      && Lasts(to.script, Moves(old(to.script)) - |payload| - 3)
  {
    if Lasts(from.script, |payload| + 3) { LastingSucceeds(0, from.script, |payload| + 3); }
    var at := |from.outgoing|;
    var s, sent := writer.WriteMessage(from, kind, Some(payload));
    if !s.Ok? { return None; }
    assert from.outgoing[at..] == Frame(kind, payload);
    assert to.incoming == [] ==> to.incoming + Frame(kind, payload) == Frame(kind, payload);
    to.incoming := to.incoming + from.outgoing[at..];
    heard := Hear(reader, to, kind, payload);
  }

  // What a call moves at most over each connection if it stays in sync
  const ROUND: nat := 516

  /** RpcChannel::CallMethod up to its answer, with one pass of the server's loop in between.  Starting
      in sync, whatever comes back is the handler's answer to what it heard, cut in the same way; and
      the ends stay in sync exactly if neither the request nor the answer was cut. */
  method CallMethod(channel: RpcCodec, client: TcpConnection, codec: RpcCodec, server: TcpConnection,
                    request: seq<Byte>, handle: Handler) returns (reply: Option<seq<Byte>>)
    requires client != server && channel != codec
    modifies channel, client, codec, server
    ensures old(InSync(client, server)) && reply.Some? ==>
      && Heard(request) != [] && handle(Heard(request)).Some?
      && var answer := handle(Heard(request)).value;
         && reply.value == Heard(answer) != []
         && (InSync(client, server) <==> Short(request) && Short(answer))
         && client.outgoing == old(client.outgoing) + Frame(1, request)
         && server.outgoing == old(server.outgoing) + Frame(2, answer)
    ensures
      (&& old(InSync(client, server)) && Clean(request, handle) && handle(request).Some?
       && Lasts(old(client.script), ROUND) && Lasts(old(server.script), ROUND)) ==>
      && reply.Some?
      && Lasts(client.script, Moves(old(client.script)) - ROUND)
      && Lasts(server.script, Moves(old(server.script)) - ROUND)
  {
    CutExactly(request);
    var heard := Transmit(channel, client, codec, server, REQUEST, request);
    if heard.None? { return None; }
    var answer := handle(heard.value);
    if answer.None? { return None; }
    CutExactly(answer.value);
    reply := Transmit(codec, server, channel, client, RESPONSE, answer.value);
  }

  lemma CutExactly(payload: seq<Byte>)
    ensures Short(payload) <==> Heard(payload) != [] && payload[|payload| % 256..] == []
    ensures Short(payload) ==> Heard(payload) == payload
  {
  }

  // The handler answers every request
  predicate AllAnswered(requests: seq<seq<Byte>>, handle: Handler) {
    forall k :: 0 <= k < |requests| ==> handle(requests[k]).Some?
  }

  /** Any number of calls over one connection.  As long as requests and answers have 1 to 255 bytes,
      the k-th reply is the handler's answer to the k-th request; and every request is answered if the
      connections last and the handler answers. */
  method Session(channel: RpcCodec, client: TcpConnection, codec: RpcCodec, server: TcpConnection,
                 requests: seq<seq<Byte>>, handle: Handler) returns (replies: seq<seq<Byte>>)
    requires client != server && channel != codec && InSync(client, server)
    modifies channel, client, codec, server
    ensures |replies| <= |requests|
    ensures forall k :: 0 <= k < |replies| && AllClean(requests[..k + 1], handle) ==>
      handle(requests[k]) == Some(replies[k])
    ensures
      (&& AllClean(requests, handle) && AllAnswered(requests, handle)
       && Lasts(old(client.script), ROUND * |requests|) && Lasts(old(server.script), ROUND * |requests|)) ==>
      |replies| == |requests|
  {
    replies := [];
    ghost var lasting :=
      && AllClean(requests, handle) && AllAnswered(requests, handle)
      && Lasts(client.script, ROUND * |requests|) && Lasts(server.script, ROUND * |requests|);
    while |replies| < |requests|
      invariant |replies| <= |requests|
      invariant AllClean(requests[..|replies|], handle) ==> InSync(client, server)
      invariant forall k :: 0 <= k < |replies| && AllClean(requests[..k + 1], handle) ==>
        handle(requests[k]) == Some(replies[k])
      invariant lasting ==>
        && Lasts(client.script, ROUND * (|requests| - |replies|))
        && Lasts(server.script, ROUND * (|requests| - |replies|))
    {
      var n := |replies|;
      var reply := CallMethod(channel, client, codec, server, requests[n], handle);
      if reply.None? { break; }
      replies := replies + [reply.value];
      if AllClean(requests[..n + 1], handle) {
        assert requests[..n + 1][n] == requests[n] && requests[..n + 1][..n] == requests[..n];
        CutExactly(requests[n]);
        CutExactly(handle(requests[n]).value);
      }
    }
  }
}
