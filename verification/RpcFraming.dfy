/** RPC framing: the three-byte header of RpcCodec.cpp over the partial transfers of
    TcpConnection.cpp.  Payloads are opaque bytes. */
module RpcFraming {
  import opened Options
  import opened Bits

  type Byte = b: nat | b < 256

  /** Waiting: no more outcomes are known and the call is still in its loop. */
  datatype Status = Ok | Failed | Interrupt | Eof | Waiting | Aborted

  /** What one Recv or Send comes back with: up to n bytes moved, EAGAIN and then the status of the
      wait for readiness, EINTR, or another error. */
  datatype Outcome = Moved(n: nat) | WouldBlock(wait: Status) | Interrupted | Broken

  const MAX_LENGTH: nat := 0xFFFF

  function Min(a: nat, b: nat): nat {
    if a < b then a else b
  }

  // ---------------------------------------------------------------- transfers

  /** How a call ends, how many bytes it moves, and how many outcomes it uses up. */
  datatype Transfer = Transfer(status: Status, moved: nat, used: nat) {
    function After(k: nat, outcomes: nat): Transfer {
      Transfer(status, k + moved, outcomes + used)
    }
  }

  /** A Read of n bytes when the stream has `available` left. */
  function Receiving(available: nat, script: seq<Outcome>, n: nat): Transfer {
    if n == 0 then Transfer(Ok, 0, 0)
    else if script == [] then Transfer(Waiting, 0, 0)
    else
      match script[0]
      case Moved(r) =>
        var k := Min(r, Min(n, available));
        if k == 0 then Transfer(Eof, 0, 1) else Receiving(available - k, script[1..], n - k).After(k, 1)
      case WouldBlock(wait) =>
        if wait.Ok? then Receiving(available, script[1..], n).After(0, 1) else Transfer(wait, 0, 1)
      case Interrupted => Receiving(available, script[1..], n).After(0, 1)
      case Broken => Transfer(Failed, 0, 1)
  }

  /** A Write of n bytes; here a send that takes nothing is tried again. */
  function Sending(script: seq<Outcome>, n: nat): Transfer {
    if n == 0 then Transfer(Ok, 0, 0)
    else if script == [] then Transfer(Waiting, 0, 0)
    else
      match script[0]
      case Moved(r) => Sending(script[1..], n - Min(r, n)).After(Min(r, n), 1)
      case WouldBlock(wait) => if wait.Ok? then Sending(script[1..], n).After(0, 1) else Transfer(wait, 0, 1)
      case Interrupted => Sending(script[1..], n).After(0, 1)
      case Broken => Transfer(Failed, 0, 1)
  }

  /** EINTR, and EAGAIN followed by readiness. */
  predicate IsNoise(o: Outcome) {
    o.Interrupted? || o == WouldBlock(Ok)
  }

  function Quiet(script: seq<Outcome>): seq<Outcome> {
    if script == [] then []
    else if IsNoise(script[0]) then Quiet(script[1..])
    else [script[0]] + Quiet(script[1..])
  }

  predicate Same(a: Transfer, b: Transfer) {
    a.status == b.status && a.moved == b.moved
  }

  lemma {:induction false} NoiseInRead(available: nat, script: seq<Outcome>, n: nat)
    ensures Same(Receiving(available, script, n), Receiving(available, Quiet(script), n))
    decreases |script|
  {
    if script != [] {
      var k := if script[0].Moved? then Min(script[0].n, Min(n, available)) else 0;
      NoiseInRead(available - k, script[1..], n - k);
      if !IsNoise(script[0]) { QuietStarts(script); }
    }
  }

  lemma {:induction false} NoiseInWrite(script: seq<Outcome>, n: nat)
    ensures Same(Sending(script, n), Sending(Quiet(script), n))
    decreases |script|
  {
    if script != [] {
      NoiseInWrite(script[1..], n - if script[0].Moved? then Min(script[0].n, n) else 0);
      if !IsNoise(script[0]) { QuietStarts(script); }
    }
  }

  lemma QuietStarts(script: seq<Outcome>)
    requires script != [] && !IsNoise(script[0])
    ensures Quiet(script) != [] && Quiet(script)[0] == script[0] && Quiet(script)[1..] == Quiet(script[1..])
  {
  }

  /** Interruptions and waits change neither the end of a call nor what it moves. */
  lemma NoiseIsIrrelevant(available: nat, script: seq<Outcome>, n: nat)
    ensures Same(Receiving(available, script, n), Receiving(available, Quiet(script), n))
    ensures Same(Sending(script, n), Sending(Quiet(script), n))
  {
    NoiseInRead(available, script, n);
    NoiseInWrite(script, n);
  }

  // The outcomes of a connection that stays open and ready
  predicate Benign(script: seq<Outcome>) {
    forall o :: o in script ==> IsNoise(o) || (o.Moved? && o.n > 0)
  }

  // How much the outcomes of the script let through
  function Capacity(script: seq<Outcome>): nat {
    if script == [] then 0 else (if script[0].Moved? then script[0].n else 0) + Capacity(script[1..])
  }

  /** On an open connection both calls succeed exactly if the chunks add up to the n bytes, whatever
      the chunks are. */
  lemma {:induction false} ChunksAddUp(available: nat, script: seq<Outcome>, n: nat)
    requires Benign(script) && n <= available
    ensures Receiving(available, script, n) == Sending(script, n)
    ensures Sending(script, n).status == (if n <= Capacity(script) then Ok else Waiting)
    ensures Sending(script, n).moved == Min(n, Capacity(script))
    decreases |script|
  {
    if n > 0 && script != [] {
      var k := if script[0].Moved? then Min(script[0].n, n) else 0;
      ChunksAddUp(available - k, script[1..], n - k);
    }
  }

  // The outcomes of the script that move something on such a connection, each at least one byte
  function Moves(script: seq<Outcome>): nat {
    if script == [] then 0 else (if script[0].Moved? then 1 else 0) + Moves(script[1..])
  }

  /** The connection stays open and ready for n bytes at least, even if they come one by one. */
  predicate Lasts(script: seq<Outcome>, n: int) {
    Benign(script) && Moves(script) >= n
  }

  lemma {:induction false} MovesAddUp(script: seq<Outcome>)
    requires Benign(script)
    ensures Moves(script) <= Capacity(script)
    decreases |script|
  {
    if script != [] {
      assert script[0] in script;
      MovesAddUp(script[1..]);
    }
  }

  /** So both calls succeed. */
  lemma LastingSucceeds(available: nat, script: seq<Outcome>, n: nat)
    requires Lasts(script, n)
    ensures Sending(script, n).status.Ok?
    ensures n <= available ==> Receiving(available, script, n).status.Ok?
  {
    MovesAddUp(script);
    ChunksAddUp(n, script, n);
    if n <= available { ChunksAddUp(available, script, n); }
  }

  /** A call for n bytes uses up n moving outcomes at most. */
  lemma {:induction false} ReceivingLasts(available: nat, script: seq<Outcome>, n: nat)
    ensures var t := Receiving(available, script, n);
      t.used <= |script| && (Benign(script) ==> Lasts(script[t.used..], Moves(script) - n))
    decreases |script|
  {
    if n > 0 && script != [] {
      var k := Min(FirstRoom(script), Min(n, available));
      ReceivingLasts(available - k, script[1..], n - k);
      Behind(script, n);
    }
  }

  lemma {:induction false} SendingLasts(script: seq<Outcome>, n: nat)
    ensures var t := Sending(script, n);
      t.used <= |script| && (Benign(script) ==> Lasts(script[t.used..], Moves(script) - n))
    decreases |script|
  {
    if n > 0 && script != [] {
      SendingLasts(script[1..], n - Min(FirstRoom(script), n));
      Behind(script, n);
    }
  }

  lemma Behind(script: seq<Outcome>, n: nat)
    requires script != []
    ensures Benign(script) ==> Benign(script[1..]) && (IsNoise(script[0]) || FirstRoom(script) > 0)
    ensures forall u: nat :: u < |script| ==> script[1..][u..] == script[u + 1..]
  {
    assert script[0] in script;
  }

  // ---------------------------------------------------------------- how a call ends

  /** A receive of what the stream has left, or a send. */
  datatype Direction = In(available: nat) | Out

  /** What ends a call that `passed` bytes have been let through for: an error, a wait for readiness that
      fails, or a receive that comes back empty. */
  predicate EndsCall(d: Direction, passed: nat, o: Outcome) {
    match o
    case Broken => true
    case WouldBlock(wait) => !wait.Ok?
    case Moved(r) => d.In? && (r == 0 || passed >= d.available)
    case Interrupted => false
  }

  function EndStatus(o: Outcome): Status {
    match o
    case WouldBlock(wait) => wait
    case Moved(_) => Eof
    case _ => Failed
  }

  // What a transfer of `room` bytes at most lets through
  function Part(d: Direction, room: nat): nat {
    if d.In? then Min(d.available, room) else room
  }

  /** How much the first k outcomes let through, if nobody asks for less. */
  function Passed(d: Direction, script: seq<Outcome>, k: nat): nat
    requires k <= |script|
  {
    if k == 0 then 0
    else Part(d, Passed(d, script, k - 1) + if script[k - 1].Moved? then script[k - 1].n else 0)
  }

  function FirstRoom(script: seq<Outcome>): nat
    requires script != []
  {
    if script[0].Moved? then script[0].n else 0
  }

  // None of the first k outcomes ends the call
  predicate GoesThrough(d: Direction, script: seq<Outcome>, k: nat)
    requires k <= |script|
  {
    k == 0 || (GoesThrough(d, script, k - 1) && !EndsCall(d, Passed(d, script, k - 1), script[k - 1]))
  }

  // All n bytes are moved, with no more outcomes than that takes
  predicate Completed(d: Direction, script: seq<Outcome>, n: nat, t: Transfer) {
    && t.used <= |script| && t.status.Ok? && t.moved == n <= Passed(d, script, t.used)
    && GoesThrough(d, script, t.used) && (t.used > 0 ==> Passed(d, script, t.used - 1) < n)
  }

  // The last outcome used is the first that ends the call, and it gives the status
  predicate CutOff(d: Direction, script: seq<Outcome>, n: nat, t: Transfer) {
    && 0 < t.used <= |script| && t.status == EndStatus(script[t.used - 1])
    && EndsCall(d, Passed(d, script, t.used - 1), script[t.used - 1]) && GoesThrough(d, script, t.used - 1)
    && t.moved == Passed(d, script, t.used - 1) < n
  }

  predicate Unended(d: Direction, script: seq<Outcome>, n: nat, t: Transfer) {
    t == Transfer(Waiting, Passed(d, script, |script|), |script|) && GoesThrough(d, script, t.used) && t.moved < n
  }

  /** A call for n bytes uses up outcomes until it has moved them all or one of them ends it, and no
      more; without either it is still waiting. */
  predicate Ended(d: Direction, script: seq<Outcome>, n: nat, t: Transfer) {
    Completed(d, script, n, t) || CutOff(d, script, n, t) || Unended(d, script, n, t)
  }

  // The direction after m more bytes
  function Further(d: Direction, m: nat): Direction {
    if d.In? && m <= d.available then In(d.available - m) else d
  }

  /** Counting from the second outcome on. */
  lemma {:induction false} PassedFrom(d: Direction, script: seq<Outcome>, m: nat, k: nat)
    requires k < |script| && m == Part(d, FirstRoom(script))
    requires !EndsCall(d, 0, script[0])
    ensures Passed(d, script, k + 1) == m + Passed(Further(d, m), script[1..], k)
    ensures GoesThrough(d, script, k + 1) <==> GoesThrough(Further(d, m), script[1..], k)
    decreases k
  {
    if k > 0 { PassedFrom(d, script, m, k - 1); }
  }

  lemma CompletedFrom(d: Direction, script: seq<Outcome>, n: nat, m: nat, t: Transfer)
    requires script != [] && m == Part(d, FirstRoom(script)) && !EndsCall(d, 0, script[0])
    requires 0 < n && m <= n && Completed(Further(d, m), script[1..], n - m, t)
    ensures Completed(d, script, n, t.After(m, 1))
  {
    PassedFrom(d, script, m, t.used);
    if t.used > 0 { PassedFrom(d, script, m, t.used - 1); }
  }

  lemma CutOffFrom(d: Direction, script: seq<Outcome>, n: nat, m: nat, t: Transfer)
    requires script != [] && m == Part(d, FirstRoom(script)) && !EndsCall(d, 0, script[0])
    requires 0 < n && m <= n && CutOff(Further(d, m), script[1..], n - m, t)
    ensures CutOff(d, script, n, t.After(m, 1))
  {
    PassedFrom(d, script, m, t.used - 1);
  }

  lemma UnendedFrom(d: Direction, script: seq<Outcome>, n: nat, m: nat, t: Transfer)
    requires script != [] && m == Part(d, FirstRoom(script)) && !EndsCall(d, 0, script[0])
    requires 0 < n && m <= n && Unended(Further(d, m), script[1..], n - m, t)
    ensures Unended(d, script, n, t.After(m, 1))
  {
    PassedFrom(d, script, m, t.used);
  }

  lemma EndedFrom(d: Direction, script: seq<Outcome>, n: nat, m: nat, t: Transfer)
    requires script != [] && m == Part(d, FirstRoom(script)) && !EndsCall(d, 0, script[0])
    requires 0 < n && m <= n && Ended(Further(d, m), script[1..], n - m, t)
    ensures Ended(d, script, n, t.After(m, 1))
  {
    if Completed(Further(d, m), script[1..], n - m, t) {
      CompletedFrom(d, script, n, m, t);
    } else if CutOff(Further(d, m), script[1..], n - m, t) {
      CutOffFrom(d, script, n, m, t);
    } else {
      UnendedFrom(d, script, n, m, t);
    }
  }

  // The first outcome decides
  lemma EndedAtOnce(d: Direction, script: seq<Outcome>, n: nat)
    requires script != [] && 0 < n
    ensures EndsCall(d, 0, script[0]) ==> Ended(d, script, n, Transfer(EndStatus(script[0]), 0, 1))
    ensures !EndsCall(d, 0, script[0]) && Part(d, FirstRoom(script)) >= n ==> Ended(d, script, n, Transfer(Ok, n, 1))
  {
    assert Passed(d, script, 0) == 0 && Passed(d, script, 1) == Part(d, FirstRoom(script));
    assert !EndsCall(d, 0, script[0]) ==> GoesThrough(d, script, 1);
  }

  /** Read: bytes until there are enough, or the first outcome that is an error, a failed wait or an
      empty receive. */
  lemma {:induction false} ReceivingEnds(available: nat, script: seq<Outcome>, n: nat)
    ensures Ended(In(available), script, n, Receiving(available, script, n))
    decreases |script|
  {
    if n > 0 && script != [] {
      var d, m := In(available), Part(In(available), FirstRoom(script));
      EndedAtOnce(d, script, n);
      NextReceive(available, script, n, 0, 0, Receiving(available, script, n));
      if !EndsCall(d, 0, script[0]) && m < n {
        ReceivingEnds(available - m, script[1..], n - m);
        EndedFrom(d, script, n, m, Receiving(available - m, script[1..], n - m));
      } else {
        NothingLeft(available, script, n);
      }
    }
  }

  lemma NothingLeft(available: nat, script: seq<Outcome>, n: nat)
    requires n > 0 && script != []
    ensures EndsCall(In(available), 0, script[0]) ==>
      Receiving(available, script, n) == Transfer(EndStatus(script[0]), 0, 1)
    ensures !EndsCall(In(available), 0, script[0]) && Part(In(available), FirstRoom(script)) >= n ==>
      Receiving(available, script, n) == Transfer(Ok, n, 1)
  {
  }

  /** Write: the same, but for the empty transfer, which is tried again. */
  lemma {:induction false} SendingEnds(script: seq<Outcome>, n: nat)
    ensures Ended(Out, script, n, Sending(script, n))
    decreases |script|
  {
    if n > 0 && script != [] {
      var m := FirstRoom(script);
      EndedAtOnce(Out, script, n);
      if !EndsCall(Out, 0, script[0]) && m < n {
        SendingEnds(script[1..], n - m);
        EndedFrom(Out, script, n, m, Sending(script[1..], n - m));
      }
    }
  }

  // ---------------------------------------------------------------- the connection

  /** One socket.  `incoming` is what the peer has sent or will send and nobody has received,
      `outgoing` what the kernel has accepted; `script` the outcomes to come, in any order. */
  class TcpConnection {
    var incoming: seq<Byte>
    var outgoing: seq<Byte>
    var script: seq<Outcome>

    constructor (incoming: seq<Byte>, script: seq<Outcome>)
      ensures this.incoming == incoming && this.script == script && outgoing == []
    {
      this.incoming, this.script, outgoing := incoming, script, [];
    }

    /** Moves up to r bytes of the stream to buf[at..]; none means that the peer has closed. */
    method Receive(buf: array<Byte>, at: nat, room: nat, r: nat) returns (k: nat)
      requires at + room <= buf.Length
      modifies this`incoming, buf
      ensures k == Min(r, Min(room, |old(incoming)|)) && old(incoming) == buf[at..at + k] + incoming
      ensures buf[..at] == old(buf[..at]) && buf[at + k..] == old(buf[at + k..])
    {
      k := Min(r, Min(room, |incoming|));
      ghost var before := buf[..];
      for i := 0 to k
        invariant incoming == old(incoming)
        invariant buf[at..at + i] == incoming[..i]
        invariant buf[..at] == before[..at] && buf[at + i..] == before[at + i..]
      {
        buf[at + i] := incoming[i];
        assert buf[at..at + i + 1] == buf[at..at + i] + [incoming[i]];
      }
      incoming := incoming[k..];
    }

    /** Fills buf[..n].  The bytes are the next ones of the stream, in order, none lost or repeated
        however they are cut up, and the call succeeds exactly if it received all of them. */
    method Read(buf: array<Byte>, n: nat) returns (s: Status, ghost got: nat)
      requires n <= buf.Length
      modifies this`incoming, this`script, buf
      ensures got <= n && old(incoming) == buf[..got] + incoming
      ensures buf[got..] == old(buf[got..])
      ensures s.Ok? <==> got == n
      ensures |script| <= |old(script)| && script == old(script)[|old(script)| - |script|..]
      ensures Transfer(s, got, |old(script)| - |script|) == Receiving(|old(incoming)|, old(script), n)
      ensures Ended(In(|old(incoming)|), old(script), n, Transfer(s, got, |old(script)| - |script|))
      ensures Benign(old(script)) ==> Lasts(script, Moves(old(script)) - n)
    {
      ReceivingEnds(|incoming|, script, n);
      ReceivingLasts(|incoming|, script, n);
      s, got := ReadLoop(buf, n);
    }

    // The first `at` bytes are those of the stream so far, and the others are as they were
    ghost predicate Holds(bytes: seq<Byte>, at: nat, stream: seq<Byte>, first: seq<Byte>)
      reads this
    {
      at <= |bytes| == |first| && stream == bytes[..at] + incoming && bytes[at..] == first[at..]
    }

    // Receives behind the first `at` bytes
    method ReceiveNext(buf: array<Byte>, at: nat, room: nat, r: nat, ghost stream: seq<Byte>, ghost first: seq<Byte>)
      returns (k: nat)
      requires at + room <= buf.Length && Holds(buf[..], at, stream, first)
      modifies this`incoming, buf
      ensures k == Min(r, Min(room, |old(incoming)|)) && |incoming| == |old(incoming)| - k
      ensures Holds(buf[..], at + k, stream, first)
    {
      ghost var before, mid := buf[..], incoming;
      k := Receive(buf, at, room, r);
      assert buf[..][..at] == buf[..at] && buf[..][at + k..] == buf[at + k..];
      Extend(stream, before, buf[..], at, k, mid, incoming);
      KeepsRest(first, before, buf[..], at, k);
    }

    method ReadLoop(buf: array<Byte>, n: nat) returns (s: Status, ghost got: nat)
      requires n <= buf.Length
      modifies this`incoming, this`script, buf
      ensures got <= n && old(incoming) == buf[..got] + incoming
      ensures buf[got..] == old(buf[got..])
      ensures s.Ok? <==> got == n
      ensures |script| <= |old(script)| && script == old(script)[|old(script)| - |script|..]
      ensures Transfer(s, got, |old(script)| - |script|) == Receiving(|old(incoming)|, old(script), n)
    {
      var left: nat := n;
      ghost var used: nat := 0;
      ghost var whole := Receiving(|incoming|, script, n);
      got := 0;
      while left > 0
        invariant left <= n && got == n - left
        invariant Holds(buf[..], got, old(incoming), old(buf[..]))
        invariant used <= |old(script)| && script == old(script)[used..]
        invariant whole == Receiving(|incoming|, script, left).After(got, used)
        decreases |script|
      {
        if script == [] { return Waiting, got; }
        var outcome := script[0];
        NextReceive(|incoming|, script, left, got, used, whole);
        assert old(script)[used..][1..] == old(script)[used + 1..];
        script := script[1..];
        used := used + 1;
        match outcome {
          case Moved(r) =>
            var k := ReceiveNext(buf, n - left, left, r, old(incoming), old(buf[..]));
            if k == 0 { return Eof, got; }
            left := left - k;
            got := n - left;
          case WouldBlock(wait) =>
            if !wait.Ok? { return wait, got; }
          case Interrupted =>
          case Broken => return Failed, got;
        }
      }
      s := Ok;
    }

    /** Sends buf[..n]: a prefix on failure, all of it exactly on success. */
    method Write(buf: array<Byte>, n: nat) returns (s: Status, ghost sent: nat)
      requires n <= buf.Length
      modifies this`outgoing, this`script
      ensures sent <= n && outgoing == old(outgoing) + buf[..sent]
      ensures s.Ok? <==> sent == n
      ensures |script| <= |old(script)| && script == old(script)[|old(script)| - |script|..]
      ensures Transfer(s, sent, |old(script)| - |script|) == Sending(old(script), n)
      ensures Ended(Out, old(script), n, Transfer(s, sent, |old(script)| - |script|))
      ensures Benign(old(script)) ==> Lasts(script, Moves(old(script)) - n)
    {
      SendingEnds(script, n);
      SendingLasts(script, n);
      s, sent := WriteLoop(buf, n);
    }

    method WriteLoop(buf: array<Byte>, n: nat) returns (s: Status, ghost sent: nat)
      requires n <= buf.Length
      modifies this`outgoing, this`script
      ensures sent <= n && outgoing == old(outgoing) + buf[..sent]
      ensures s.Ok? <==> sent == n
      ensures |script| <= |old(script)| && script == old(script)[|old(script)| - |script|..]
      ensures Transfer(s, sent, |old(script)| - |script|) == Sending(old(script), n)
    {
      var left: nat := n;
      ghost var used: nat := 0;
      sent := 0;
      while left > 0
        invariant left <= n && sent == n - left
        invariant outgoing == old(outgoing) + buf[..sent]
        invariant used <= |old(script)| && script == old(script)[used..]
        invariant Sending(old(script), n) == Sending(script, left).After(sent, used)
        decreases |script|
      {
        if script == [] { return Waiting, sent; }
        var outcome := script[0];
        script := script[1..];
        used := used + 1;
        match outcome {
          case Moved(r) =>
            var k: nat := Min(r, left);
            var at := n - left;
            outgoing := outgoing + buf[at..at + k];
            assert buf[..at] + buf[at..at + k] == buf[..at + k];
            left := left - k;
            sent := n - left;
          case WouldBlock(wait) =>
            if !wait.Ok? { return wait, sent; }
          case Interrupted =>
          case Broken => return Failed, sent;
        }
      }
      s := Ok;
    }
  }

  // What the next outcome does to a Read under way
  lemma NextReceive(available: nat, script: seq<Outcome>, n: nat, got: nat, used: nat, whole: Transfer)
    requires n > 0 && script != [] && whole == Receiving(available, script, n).After(got, used)
    ensures
      match script[0]
      case Moved(r) =>
        var k := Min(r, Min(n, available));
        whole == if k == 0 then Transfer(Eof, got, used + 1)
                 else Receiving(available - k, script[1..], n - k).After(got + k, used + 1)
      case WouldBlock(wait) =>
        whole == if wait.Ok? then Receiving(available, script[1..], n).After(got, used + 1)
                 else Transfer(wait, got, used + 1)
      case Interrupted => whole == Receiving(available, script[1..], n).After(got, used + 1)
      case Broken => whole == Transfer(Failed, got, used + 1)
  {
  }

  // What lies behind the bytes received is as it was
  lemma KeepsRest(first: seq<Byte>, before: seq<Byte>, after: seq<Byte>, at: nat, k: nat)
    requires at + k <= |first| == |before| == |after|
    requires before[at..] == first[at..] && after[at + k..] == before[at + k..]
    ensures after[at + k..] == first[at + k..]
  {
    assert before[at + k..] == before[at..][k..] && first[at + k..] == first[at..][k..];
  }

  lemma Extend(stream: seq<Byte>, before: seq<Byte>, after: seq<Byte>, at: nat, k: nat, mid: seq<Byte>, rest: seq<Byte>)
    requires at + k <= |before| == |after| && stream == before[..at] + mid && mid == after[at..at + k] + rest
    requires after[..at] == before[..at]
    ensures stream == after[..at + k] + rest
  {
    assert after[..at + k] == after[..at] + after[at..at + k];
  }

  // ---------------------------------------------------------------- the frame format

  /** The header as the writer computes it: the type, the low byte of the length, and the byte above
      bit 16. */
  function Header(kind: Byte, length: nat): (h: seq<Byte>)
    ensures |h| == 3
  {
    MaskAndShift(length, 8);
    MaskAndShift(Shr(length, 16), 8);
    assert Pow2(8) == 256;
    [kind, And(length, 0xFF), And(Shr(length, 16), 0xFF)]
  }

  function Frame(kind: Byte, payload: seq<Byte>): seq<Byte> {
    Header(kind, |payload|) + payload
  }

  // The header in memory as a little-endian number
  function Word(low: nat, mid: nat, high: nat): nat {
    low + 0x100 * mid + 0x1_0000 * high
  }

  function HeadOf(b: seq<Byte>): nat
    requires |b| == 3
  {
    Word(b[0], b[1], b[2])
  }

  function KindOf(head: nat): nat {
    And(head, 0xFF)
  }

  /** The length as the reader computes it. */
  function LengthOf(head: nat): nat {
    And(Shr(head, 8), 0xFFFF)
  }

  lemma ByteMasks(x: nat)
    ensures And(x, 0xFF) == x % 0x100 && Shr(x, 8) == x / 0x100 && And(x, 0xFFFF) == x % 0x1_0000
  {
    assert Pow2(8) == 0x100 && Pow2(16) == 0x1_0000 by { Pow2Add(8, 8); }
    MaskAndShift(x, 8);
    MaskAndShift(x, 16);
  }

  lemma WordFields(low: nat, mid: nat, high: nat)
    requires low < 0x100 && mid < 0x100 && high < 0x100
    ensures KindOf(Word(low, mid, high)) == low
    ensures LengthOf(Word(low, mid, high)) == mid + 0x100 * high
  {
    var head, length := Word(low, mid, high), mid + 0x100 * high;
    ByteMasks(head);
    DivUnique(head, 0x100, length, low);
    ByteMasks(length);
    DivUnique(length, 0x1_0000, 0, length);
  }

  /** The reader takes the length modulo 256: the writer puts the byte above bit 16, which is zero,
      where the reader expects the byte above bit 8. */
  lemma DecodedLength(kind: Byte, length: nat)
    requires length < MAX_LENGTH
    ensures KindOf(HeadOf(Header(kind, length))) == kind
    ensures LengthOf(HeadOf(Header(kind, length))) == length % 256
  {
    var h := Header(kind, length);
    WordFields(h[0], h[1], h[2]);
    assert Pow2(8) == 256 && Pow2(16) == 65536 by { Pow2Add(8, 8); }
    MaskAndShift(length, 8);
    MaskAndShift(length, 16);
    DivUnique(length, 65536, 0, length);
  }

  // What one ReadMessage makes of a stream that holds everything it asks for
  datatype Decoded = Message(payload: seq<Byte>, rest: seq<Byte>) | BadMessage(rest: seq<Byte>) | Short

  function Decode(stream: seq<Byte>, kind: Byte): Decoded {
    if |stream| < 3 then Short else
    var head := HeadOf(stream[..3]);
    if KindOf(head) != kind || LengthOf(head) == 0 then BadMessage(stream[3..])
    else if |stream| < 3 + LengthOf(head) then Short
    else Message(stream[3..3 + LengthOf(head)], stream[3 + LengthOf(head)..])
  }

  /** What the reader makes of any frame of the right type, whatever follows it. */
  lemma DecodeFrame(kind: Byte, payload: seq<Byte>, rest: seq<Byte>)
    requires |payload| < MAX_LENGTH
    ensures
      var n := |payload| % 256;
      Decode(Frame(kind, payload) + rest, kind) ==
        if n == 0 then BadMessage(payload + rest) else Message(payload[..n], payload[n..] + rest)
  {
    var h := Header(kind, |payload|);
    DecodedLength(kind, |payload|);
    var n := |payload| % 256;
    var body := payload + rest;
    assert Frame(kind, payload) + rest == h + body;
    DecodeParts(h, body, kind, n);
    assert body[..n] == payload[..n] && body[n..] == payload[n..] + rest;
  }

  lemma DecodeParts(h: seq<Byte>, body: seq<Byte>, kind: Byte, n: nat)
    requires |h| == 3 && KindOf(HeadOf(h)) == kind && LengthOf(HeadOf(h)) == n <= |body|
    ensures Decode(h + body, kind) == if n == 0 then BadMessage(body) else Message(body[..n], body[n..])
  {
    var stream := h + body;
    assert stream[..3] == h && stream[3..] == body;
    assert stream[3..3 + n] == body[..n] && stream[3 + n..] == body[n..];
  }

  datatype Msg = Msg(kind: Byte, payload: seq<Byte>)

  function Frames(msgs: seq<Msg>): seq<Byte> {
    if msgs == [] then [] else Frame(msgs[0].kind, msgs[0].payload) + Frames(msgs[1..])
  }

  /** Reads as many messages as `msgs` has, with their types, up to the first error. */
  function ReadBack(stream: seq<Byte>, msgs: seq<Msg>): Option<seq<Msg>> {
    if msgs == [] then (if stream == [] then Some([]) else None) else
    match Decode(stream, msgs[0].kind)
    case Message(payload, rest) => Before(Msg(msgs[0].kind, payload), ReadBack(rest, msgs[1..]))
    case _ => None
  }

  function Before(m: Msg, more: Option<seq<Msg>>): Option<seq<Msg>> {
    if more.None? then None else Some([m] + more.value)
  }

  predicate Readable(m: Msg) {
    1 <= |m.payload| <= 255
  }

  /** A sequence of frames reads back as it was written exactly if every payload has 1 to 255 bytes. */
  lemma {:induction false} ReadsBackExactly(msgs: seq<Msg>)
    requires forall m :: m in msgs ==> |m.payload| < MAX_LENGTH
    ensures ReadBack(Frames(msgs), msgs) == Some(msgs) <==> forall m :: m in msgs ==> Readable(m)
    decreases |msgs|
  {
    if msgs != [] {
      var m, rest := msgs[0], msgs[1..];
      ReadsBackExactly(rest);
      assert msgs == [m] + rest;
      if Readable(m) {
        ReadableFrame(m, Frames(rest));
        ReadBackStep(Frames(msgs), msgs, Frames(rest));
      } else if ReadBack(Frames(msgs), msgs) == Some(msgs) {
        DecodeFrame(m.kind, m.payload, Frames(rest));
        ReadsFirst(Frames(msgs), msgs);
        assert false;
      }
    }
  }

  lemma ReadableFrame(m: Msg, rest: seq<Byte>)
    requires Readable(m)
    ensures Decode(Frame(m.kind, m.payload) + rest, m.kind) == Message(m.payload, rest)
  {
    DecodeFrame(m.kind, m.payload, rest);
    WholePayload(m.payload, rest, |m.payload| % 256);
  }

  lemma WholePayload(payload: seq<Byte>, rest: seq<Byte>, n: nat)
    requires n == |payload|
    ensures payload[..n] == payload && payload[n..] + rest == rest
  {
  }

  lemma ReadBackStep(stream: seq<Byte>, msgs: seq<Msg>, rest: seq<Byte>)
    requires msgs != [] && Decode(stream, msgs[0].kind) == Message(msgs[0].payload, rest)
    ensures ReadBack(stream, msgs) == Some(msgs) <==> ReadBack(rest, msgs[1..]) == Some(msgs[1..])
  {
    BeforeIs(msgs[0], ReadBack(rest, msgs[1..]), msgs);
  }

  lemma BeforeIs(m: Msg, more: Option<seq<Msg>>, msgs: seq<Msg>)
    requires msgs != [] && m.kind == msgs[0].kind
    ensures Before(m, more) == Some(msgs) <==> m == msgs[0] && more == Some(msgs[1..])
  {
    if more.Some? {
      assert ([m] + more.value)[0] == m && ([m] + more.value)[1..] == more.value;
      assert [msgs[0]] + msgs[1..] == msgs;
    }
  }

  // Reading back starts with the first frame's payload
  lemma ReadsFirst(stream: seq<Byte>, msgs: seq<Msg>)
    requires msgs != [] && ReadBack(stream, msgs) == Some(msgs)
    ensures Decode(stream, msgs[0].kind).Message? && Decode(stream, msgs[0].kind).payload == msgs[0].payload
  {
    var d := Decode(stream, msgs[0].kind);
    BeforeIs(Msg(msgs[0].kind, d.payload), ReadBack(d.rest, msgs[1..]), msgs);
  }

  // ---------------------------------------------------------------- the codec

  /** Only part of the message at the front of the stream has been taken. */
  predicate Unfinished(stream: seq<Byte>, rest: seq<Byte>, kind: Byte) {
    && |rest| <= |stream| && rest == stream[|stream| - |rest|..]
    && var taken := |stream| - |rest|;
       var message := Decode(stream, kind);
       taken < 3 || (!message.BadMessage? && (message.Message? ==> taken < 3 + |message.payload|))
  }

  // How many bytes the message at the front of the stream takes
  function NeededFor(stream: seq<Byte>, kind: Byte): nat {
    var message := Decode(stream, kind);
    if message.Message? then 3 + |message.payload| else 3
  }

  /** The status of the transfer that keeps a message from being read: the header's, or else the body's,
      over the outcomes the header has left. */
  function TransportStatus(stream: seq<Byte>, script: seq<Outcome>): Status {
    var head := Receiving(|stream|, script, 3);
    if head.status.Ok? && |stream| >= 3 && head.used <= |script| then
      Receiving(|stream| - 3, script[head.used..], LengthOf(HeadOf(stream[..3]))).status
    else head.status
  }

  datatype ReadResult = Got | TypeError | LengthError | Transport(status: Status)

  class RpcCodec {
    var buffer: array<Byte>

    constructor ()
      ensures fresh(buffer)
    {
      buffer := new Byte[0];
    }

    /** `payload` is the serialized message, if serialization succeeded.  A payload of 2^16 - 1 bytes
        or more aborts the process. */
    method WriteMessage(conn: TcpConnection, kind: Byte, payload: Option<seq<Byte>>)
      returns (s: Status, ghost sent: nat)
      modifies this, conn`outgoing, conn`script
      ensures payload.None? ==> s == Failed
      ensures payload.Some? && |payload.value| >= 0xFFFF ==> s == Aborted
      ensures payload.None? || |payload.value| >= MAX_LENGTH ==> sent == 0 && conn.outgoing == old(conn.outgoing)
      ensures payload.Some? && |payload.value| < MAX_LENGTH ==>
        && sent <= |Frame(kind, payload.value)|
        && conn.outgoing == old(conn.outgoing) + Frame(kind, payload.value)[..sent]
        && (s.Ok? <==> sent == |Frame(kind, payload.value)|)
        && Same(Transfer(s, sent, 0), Sending(old(conn.script), |payload.value| + 3))
        && (Benign(old(conn.script)) ==> Lasts(conn.script, Moves(old(conn.script)) - |payload.value| - 3))
    {
      if payload.None? { return Failed, 0; }
      var length := |payload.value|;
      var bytes := [kind, 0, 0] + payload.value;
      buffer := new Byte[3 + length](i requires 0 <= i < |bytes| => bytes[i]);
      if length >= MAX_LENGTH { return Aborted, 0; }
      var h := Header(kind, length);
      buffer[1] := h[1];
      buffer[2] := h[2];
      assert buffer[..] == Frame(kind, payload.value);
      s, sent := conn.Write(buffer, buffer.Length);
    }

    /** Reads one message of the given type.  Whatever the chunks, the outcome is what Decode makes of
        the stream, and the stream goes on exactly behind what was taken; a transport error strikes
        only before the message is complete. */
    method ReadMessage(conn: TcpConnection, kind: Byte) returns (r: ReadResult)
      modifies this, conn`incoming, conn`script
      ensures r.Got? ==> Decode(old(conn.incoming), kind) == Message(buffer[..], conn.incoming)
      ensures r.TypeError? || r.LengthError? ==> Decode(old(conn.incoming), kind) == BadMessage(conn.incoming)
      ensures !r.Transport? ==> |old(conn.incoming)| >= 3 && (r.TypeError? <==> old(conn.incoming[0]) != kind)
      ensures r.LengthError? ==> old(conn.incoming[1]) == old(conn.incoming[2]) == 0
      ensures r.Got? ==> buffer.Length == old(conn.incoming[1]) as nat + 0x100 * (old(conn.incoming[2]) as nat) > 0
      ensures r.Transport? ==> !r.status.Ok? && Unfinished(old(conn.incoming), conn.incoming, kind)
      ensures r.Transport? ==> r.status == TransportStatus(old(conn.incoming), old(conn.script))
      ensures Lasts(old(conn.script), NeededFor(old(conn.incoming), kind)) && r.Transport? ==>
        Decode(old(conn.incoming), kind).Short?
      ensures Benign(old(conn.script)) && r.Got? ==>
        Lasts(conn.script, Moves(old(conn.script)) - NeededFor(old(conn.incoming), kind))
    {
      ghost var stream := conn.incoming;
      var s, word := ReadHead(conn);
      if !s.Ok? { return Transport(s); }
      WordFields(stream[0], stream[1], stream[2]);
      if KindOf(word) != kind { return TypeError; }
      var length := LengthOf(word);
      if length == 0 { return LengthError; }
      s := ReadBody(conn, length);
      if s.Ok? {
        BodyDecodes(stream, buffer[..], conn.incoming, kind);
        return Got;
      }
      BodyUnfinished(stream, conn.incoming, kind);
      return Transport(s);
    }

    method ReadHead(conn: TcpConnection) returns (s: Status, word: nat)
      modifies conn`incoming, conn`script
      ensures s.Ok? ==> |old(conn.incoming)| >= 3 && conn.incoming == old(conn.incoming)[3..]
      ensures s.Ok? ==> word == HeadOf(old(conn.incoming)[..3])
      ensures !s.Ok? ==> exists k :: 0 <= k < 3 && k <= |old(conn.incoming)| && conn.incoming == old(conn.incoming)[k..]
      ensures Lasts(old(conn.script), 3) && |old(conn.incoming)| >= 3 ==> s.Ok?
      ensures Benign(old(conn.script)) ==> Lasts(conn.script, Moves(old(conn.script)) - 3)
      ensures var t := Receiving(|old(conn.incoming)|, old(conn.script), 3);
        s == t.status && t.used <= |old(conn.script)| && conn.script == old(conn.script)[t.used..]
    {
      ghost var stream := conn.incoming;
      if Lasts(conn.script, 3) { LastingSucceeds(|stream|, conn.script, 3); }
      var head := new Byte[4](_ => 0);
      ghost var got: nat;
      s, got := conn.Read(head, 3);
      assert stream[got..] == conn.incoming;
      word := Word(head[0], head[1], head[2]);
      if s.Ok? { assert head[..3] == stream[..3]; }
    }

    method ReadBody(conn: TcpConnection, length: nat) returns (s: Status)
      modifies this, conn`incoming, conn`script
      ensures s.Ok? ==> buffer.Length == length && old(conn.incoming) == buffer[..] + conn.incoming
      ensures !s.Ok? ==> exists k ::
        0 <= k < length && k <= |old(conn.incoming)| && conn.incoming == old(conn.incoming)[k..]
      ensures Lasts(old(conn.script), length) && |old(conn.incoming)| >= length ==> s.Ok?
      ensures Benign(old(conn.script)) ==> Lasts(conn.script, Moves(old(conn.script)) - length)
      ensures s == Receiving(|old(conn.incoming)|, old(conn.script), length).status
    {
      ghost var stream := conn.incoming;
      if Lasts(conn.script, length) { LastingSucceeds(|stream|, conn.script, length); }
      buffer := new Byte[length](_ => 0);
      ghost var got: nat;
      s, got := conn.Read(buffer, length);
      assert stream[got..] == conn.incoming;
      if s.Ok? { assert buffer[..] == buffer[..got]; }
    }
  }

  lemma BodyDecodes(stream: seq<Byte>, body: seq<Byte>, rest: seq<Byte>, kind: Byte)
    requires |stream| >= 3 && stream[3..] == body + rest
    requires KindOf(HeadOf(stream[..3])) == kind && LengthOf(HeadOf(stream[..3])) == |body| > 0
    ensures Decode(stream, kind) == Message(body, rest)
  {
    assert stream[3..3 + |body|] == stream[3..][..|body|] == body;
    assert stream[3 + |body|..] == stream[3..][|body|..] == rest;
  }

  lemma BodyUnfinished(stream: seq<Byte>, rest: seq<Byte>, kind: Byte)
    requires |stream| >= 3 && KindOf(HeadOf(stream[..3])) == kind && LengthOf(HeadOf(stream[..3])) > 0
    requires exists k :: 0 <= k < LengthOf(HeadOf(stream[..3])) && k <= |stream[3..]| && rest == stream[3..][k..]
    ensures Unfinished(stream, rest, kind)
  {
    var k :| 0 <= k < LengthOf(HeadOf(stream[..3])) && k <= |stream[3..]| && rest == stream[3..][k..];
    assert rest == stream[3 + k..];
  }
}
