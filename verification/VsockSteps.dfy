// The reactor's operations on a world, each with the answers its sockets gave, and why each of them
// keeps every connection in order.
module VsockSteps {
  import opened Prelude
  import opened VsockProto
  import opened VsockWorld

  datatype ReadResult = Data(bytes: seq<byte>) | Eof | ReadBlocked | ReadFailed

  // A write offered the first `front` buffered bytes.
  datatype WriteResult = Wrote(n: nat) | WriteBlocked | WriteFailed
  datatype WriteAnswer = WriteAnswer(front: nat, result: WriteResult)

  function SocketOf(w: World, port: u32): (fd: nat)
    requires Shaped(w) && port in w.conns
    ensures fd < |w.opens| == |w.logs| == |w.flows|
  {
    assert Slotted(w, port);
    w.conns[port].uds
  }

  // --- telling the guest ----------------------------------------------------------------------

  lemma SameAgain<T>(s: seq<T>, i: nat)
    requires i < |s|
    ensures s[i := s[i]] == s
  {
  }

  lemma TellOutbound(c: Conn, f: Flow, s: SocketLog, out: Outgoing, heard: Incoming, op: u16, cid: u64)
    requires Outbound(c, f, s, out) && Inbound(c, f, s, heard) && op != OP_RW
    ensures var d := Told(c, op);
            && Outbound(d, f, s, Sends(out, Packet(d.HeaderFor(cid, op, 0), []), c.localPort))
            && Inbound(d, f, s, heard)
  {
    UnwrapsWithin(out.learned, |f.written|);
  }

  lemma TellKeepsGood(w: World, port: u32, op: u16)
    requires Good(w, Some(port)) && op != OP_RW
    ensures Good(Tell(w, port, op), Some(port))
    ensures port in w.conns && op != OP_RST &&
            (op == OP_CREDIT_UPDATE || w.conns[port].lastCreditSent == w.conns[port].rxFwdCnt)
            ==> Good(Tell(w, port, op), None)
  {
    if port in w.conns {
      var fd := SocketOf(w, port);
      var c := Told(w.conns[port], op);
      var v := Tell(w, port, op);
      SameAgain(w.flows, fd);
      SameAgain(w.logs, fd);
      assert Slotted(w, port) && Joined(w, port) && Placed(w, w.opens[fd]);
      OutAppend(w.pushed, v.pushed[|w.pushed|], w.opens[fd].pushedAt, port);
      TellOutbound(w.conns[port], w.flows[fd], w.logs[fd], OutOf(w, fd), HeardOf(w, fd), op, w.cid);
      ReplaceKeepsGood(w, v, c, w.flows[fd], w.logs[fd]);
    }
  }

  // A connection ends because its socket did: the guest is told first.
  function SocketEnds(w: World, port: u32, op: u16): World
    requires Shaped(w) && port in w.conns
  {
    var fd := SocketOf(w, port);
    Drop(Tell(w.(logs := w.logs[fd := w.logs[fd].(ended := true)]), port, op), port)
  }

  lemma SocketEndsKeepsGood(w: World, port: u32, op: u16)
    requires Good(w, Some(port)) && port in w.conns && op != OP_RW
    ensures Good(SocketEnds(w, port, op), None)
  {
    var told := Tell(w, port, op);
    TellKeepsGood(w, port, op);
    var fd := SocketOf(w, port);
    var v := SocketEnds(w, port, op);
    assert v.conns == told.conns - {port} && told.conns[port].uds == fd;
    RemoveKeepsGood(told, v, port);
  }

  // --- socket to guest ---------------------------------------------------------------------------

  function SendRw(w: World, port: u32, data: seq<byte>): World
    requires Shaped(w) && port in w.conns && |data| < TWO32
  {
    var c := w.conns[port];
    var fd := SocketOf(w, port);
    Push(w.(conns := w.conns[port := c.(credit := c.credit.RecordSent(|data|))],
            flows := w.flows[fd := w.flows[fd].(log := w.flows[fd].log + [Sent(|data|)])]),
         Packet(c.HeaderFor(w.cid, OP_RW, |data|), data))
  }

  function LogRead(w: World, port: u32, data: seq<byte>): World
    requires Shaped(w) && port in w.conns
  {
    var fd := SocketOf(w, port);
    w.(logs := w.logs[fd := w.logs[fd].(read := w.logs[fd].read + data)])
  }

  lemma LogReadShape(w: World, port: u32, data: seq<byte>)
    requires Shaped(w) && port in w.conns
    ensures Shaped(LogRead(w, port, data))
  {
    var v := LogRead(w, port, data);
    forall p | p in v.conns ensures Slotted(v, p) { assert Slotted(w, p); }
    GrowsKeepsShape(w, v);
  }

  // The connection's own part of it.
  lemma SendOutbound(c: Conn, f: Flow, s: SocketLog, out: Outgoing, heard: Incoming, pkt: Packet, data: seq<byte>)
    requires Outbound(c, f, s, out) && Inbound(c, f, s, heard) && 0 < |data| <= c.credit.Available()
    requires pkt.hdr.srcPort == c.localPort && pkt.hdr.op == OP_RW && pkt.data == data && pkt.hdr.fwdCnt == c.rxFwdCnt
    ensures var d, g := c.(credit := c.credit.RecordSent(|data|)), f.(log := f.log + [Sent(|data|)]);
            var t := s.(read := s.read + data);
            Outbound(d, g, t, Sends(out, pkt, c.localPort)) && Inbound(d, g, t, heard)
  {
    LogAppend(f.log, Sent(|data|));
    UnwrapsWithin(out.learned, |f.written|);
  }

  // Bytes the socket gave go out in one packet, within the window.
  lemma ForwardKeepsGood(w: World, port: u32, data: seq<byte>)
    requires Good(w, None) && port in w.conns && 0 < |data| <= w.conns[port].credit.Available()
    ensures Shaped(LogRead(w, port, data)) && Good(SendRw(LogRead(w, port, data), port, data), None)
  {
    LogReadShape(w, port, data);
    var fd := SocketOf(w, port);
    var c, f, s := w.conns[port], w.flows[fd], w.logs[fd];
    var d := c.(credit := c.credit.RecordSent(|data|));
    var g := f.(log := f.log + [Sent(|data|)]);
    var t := s.(read := s.read + data);
    var v := SendRw(LogRead(w, port, data), port, data);
    assert Slotted(w, port) && Joined(w, port) && Placed(w, w.opens[fd]);
    var pkt := v.pushed[|w.pushed|];
    OutAppend(w.pushed, pkt, w.opens[fd].pushedAt, port);
    SendOutbound(c, f, s, OutOf(w, fd), HeardOf(w, fd), pkt, data);
    ReplaceKeepsGood(w, v, d, g, t);
  }

  predicate CanPump(w: World, port: u32)
  {
    port in w.conns && w.conns[port].state.Established? && w.conns[port].credit.Available() > 0
  }

  predicate ReadFits(w: World, port: u32, r: ReadResult)
    requires port in w.conns
  {
    r.Data? ==> 0 < |r.bytes| <= Min(w.conns[port].credit.Available(), MAX_RW_PAYLOAD)
  }

  // One read: its bytes are forwarded, end of file or an error closes the connection.
  function Pumped(w: World, port: u32, r: ReadResult): World
    requires Shaped(w) && CanPump(w, port) && ReadFits(w, port, r)
  {
    match r
    case Data(bytes) =>
      LogReadShape(w, port, bytes);
      SendRw(LogRead(w, port, bytes), port, bytes)
    case ReadBlocked => w
    case _ => SocketEnds(w, port, OP_SHUTDOWN)
  }

  lemma PumpKeepsGood(w: World, port: u32, r: ReadResult)
    requires Good(w, None) && CanPump(w, port) && ReadFits(w, port, r)
    ensures Good(Pumped(w, port, r), None)
  {
    match r {
      case Data(bytes) => ForwardKeepsGood(w, port, bytes);
      case ReadBlocked =>
      case _ => SocketEndsKeepsGood(w, port, OP_SHUTDOWN);
    }
  }

  lemma SmallMod(x: int)
    requires -TWO32 <= x < 2 * TWO32
    ensures x % TWO32 == if x < 0 then x + TWO32 else if x < TWO32 then x else x - TWO32
  {
  }

  // Sending uses up the window, whatever the peer has reported, so a pump always ends.
  lemma SendShrinks(t: CreditTracker, n: nat)
    requires n <= t.Available()
    ensures t.RecordSent(n).Available() == t.Available() - n
  {
    SmallMod(t.txCnt + n);
    SmallMod(t.txCnt - t.peerFwdCnt);
    SmallMod((t.txCnt + n) % TWO32 - t.peerFwdCnt);
  }

  // A whole pump: one read after another. `PumpAllowed` says each was made when the code makes it.
  ghost predicate PumpOk(w: World, port: u32, r: ReadResult)
  {
    Shaped(w) && CanPump(w, port) && ReadFits(w, port, r)
  }

  ghost function PumpAll(w: World, port: u32, answers: seq<ReadResult>): World
    decreases |answers|
  {
    if answers == [] || !PumpOk(w, port, answers[0]) then w
    else PumpAll(Pumped(w, port, answers[0]), port, answers[1..])
  }

  ghost predicate PumpAllowed(w: World, port: u32, answers: seq<ReadResult>)
    decreases |answers|
  {
    if answers == [] then !CanPump(w, port)
    else
      && PumpOk(w, port, answers[0])
      && if answers[0].Data? then PumpAllowed(Pumped(w, port, answers[0]), port, answers[1..]) else |answers| == 1
  }

  lemma {:induction false} PumpAllKeepsGood(w: World, port: u32, answers: seq<ReadResult>)
    requires Good(w, None)
    ensures Good(PumpAll(w, port, answers), None)
    decreases |answers|
  {
    if answers != [] && PumpOk(w, port, answers[0]) {
      PumpKeepsGood(w, port, answers[0]);
      PumpAllKeepsGood(Pumped(w, port, answers[0]), port, answers[1..]);
    }
  }

  // The loop so far: every read brought data.
  ghost predicate PumpSoFar(w: World, port: u32, answers: seq<ReadResult>, u: World)
    decreases |answers|
  {
    if answers == [] then u == w
    else
      && PumpOk(w, port, answers[0]) && answers[0].Data?
      && PumpSoFar(Pumped(w, port, answers[0]), port, answers[1..], u)
  }

  lemma {:induction false} PumpMore(w: World, port: u32, answers: seq<ReadResult>, u: World, r: ReadResult)
    requires PumpSoFar(w, port, answers, u) && PumpOk(u, port, r)
    ensures r.Data? ==> PumpSoFar(w, port, answers + [r], Pumped(u, port, r))
    ensures !r.Data? ==> PumpAllowed(w, port, answers + [r])
    ensures PumpAll(w, port, answers + [r]) == Pumped(u, port, r)
    decreases |answers|
  {
    if answers == [] {
      assert answers + [r] == [r] && [r][1..] == [];
      assert PumpAll(Pumped(w, port, r), port, []) == Pumped(w, port, r);
    } else {
      assert (answers + [r])[1..] == answers[1..] + [r];
      PumpMore(Pumped(w, port, answers[0]), port, answers[1..], u, r);
    }
  }

  lemma {:induction false} PumpDone(w: World, port: u32, answers: seq<ReadResult>, u: World)
    requires PumpSoFar(w, port, answers, u) && !CanPump(u, port)
    ensures PumpAllowed(w, port, answers) && PumpAll(w, port, answers) == u
    decreases |answers|
  {
    if answers != [] { PumpDone(Pumped(w, port, answers[0]), port, answers[1..], u); }
  }

  // A read that brought data leaves the connection open with a smaller window.
  lemma PumpShrinks(w: World, port: u32, r: ReadResult)
    requires PumpOk(w, port, r) && r.Data?
    ensures port in Pumped(w, port, r).conns
    ensures Pumped(w, port, r).conns[port].credit.Available() < w.conns[port].credit.Available()
  {
    SendShrinks(w.conns[port].credit, |r.bytes|);
  }

  // --- guest to socket ------------------------------------------------------------------------------

  predicate WriteFits(c: Conn, a: WriteAnswer)
  {
    1 <= a.front <= |c.toUds| && (a.result.Wrote? ==> a.result.n <= a.front)
  }

  predicate Advances(a: WriteAnswer)
  {
    a.result.Wrote? && a.result.n > 0
  }

  function Taken(c: Conn, n: nat): Conn
    requires n <= |c.toUds|
  {
    c.(toUds := c.toUds[n..], rxFwdCnt := (c.rxFwdCnt + n % TWO32) % TWO32)
  }

  // One write: the bytes taken leave the buffer and count as consumed, an error closes the connection.
  function Flushed(w: World, port: u32, a: WriteAnswer): World
    requires Shaped(w) && port in w.conns && WriteFits(w.conns[port], a)
  {
    match a.result
    case Wrote(n) =>
      if n == 0 then w
      else
        var fd := SocketOf(w, port);
        var bytes := w.conns[port].toUds[..n];
        w.(conns := w.conns[port := Taken(w.conns[port], n)],
        flows := w.flows[fd := w.flows[fd].(written := w.flows[fd].written + bytes)],
        logs := w.logs[fd := w.logs[fd].(wrote := w.logs[fd].wrote + bytes)])
    case WriteBlocked => w
    case WriteFailed => SocketEnds(w, port, OP_RST)
  }

  // The last count advertised is the one the code remembers having sent.
  ghost predicate Quiet(w: World, port: u32)
  {
    Shaped(w) && (port in w.conns ==> OutOf(w, SocketOf(w, port)).advertised == w.conns[port].lastCreditSent)
  }

  lemma SpliceMore(f: Flow, bytes: seq<byte>)
    requires f.greeting.Some? ==> f.greeting.value.at <= |f.written|
    ensures Spliced(f.(written := f.written + bytes)) == Spliced(f) + bytes
  {
    if f.greeting.Some? {
      var at := f.greeting.value.at;
      assert (f.written + bytes)[..at] == f.written[..at] && (f.written + bytes)[at..] == f.written[at..] + bytes;
    }
  }

  lemma TakeInbound(c: Conn, f: Flow, s: SocketLog, heard: Incoming, n: nat)
    requires Inbound(c, f, s, heard) && n <= |c.toUds|
    ensures var bytes := c.toUds[..n];
            Inbound(Taken(c, n), f.(written := f.written + bytes), s.(wrote := s.wrote + bytes), heard)
  {
    var bytes := c.toUds[..n];
    assert f.written + c.toUds == f.written + bytes + c.toUds[n..];
    SpliceMore(f, bytes);
    ModSum(|f.written|, n);
    ModSum(n, c.rxFwdCnt);
  }

  lemma TakeKeepsGood(w: World, port: u32, a: WriteAnswer)
    requires Good(w, Some(port)) && Quiet(w, port) && port in w.conns && WriteFits(w.conns[port], a) && Advances(a)
    ensures Good(Flushed(w, port, a), Some(port)) && Quiet(Flushed(w, port, a), port)
  {
    var n := a.result.n;
    var fd := SocketOf(w, port);
    var c, f, s := w.conns[port], w.flows[fd], w.logs[fd];
    var bytes := c.toUds[..n];
    assert Slotted(w, port) && Joined(w, port);
    TakeInbound(c, f, s, HeardOf(w, fd), n);
    ReplaceKeepsGood(w, Flushed(w, port, a), Taken(c, n), f.(written := f.written + bytes),
                     s.(wrote := s.wrote + bytes));
  }

  lemma FlushKeepsGood(w: World, port: u32, a: WriteAnswer)
    requires Good(w, Some(port)) && Quiet(w, port) && port in w.conns && WriteFits(w.conns[port], a)
    ensures Good(Flushed(w, port, a), Some(port)) && Quiet(Flushed(w, port, a), port)
    ensures !Advances(a) && Good(w, None) ==> Good(Flushed(w, port, a), None)
  {
    if Advances(a) {
      TakeKeepsGood(w, port, a);
    } else if a.result.WriteFailed? {
      SocketEndsKeepsGood(w, port, OP_RST);
    }
  }

  ghost predicate FlushOk(w: World, port: u32, a: WriteAnswer)
  {
    Shaped(w) && port in w.conns && WriteFits(w.conns[port], a)
  }

  ghost function FlushAll(w: World, port: u32, answers: seq<WriteAnswer>): World
    decreases |answers|
  {
    if answers == [] || !FlushOk(w, port, answers[0]) then w
    else FlushAll(Flushed(w, port, answers[0]), port, answers[1..])
  }

  ghost predicate FlushAllowed(w: World, port: u32, answers: seq<WriteAnswer>)
    decreases |answers|
  {
    if answers == [] then port !in w.conns || w.conns[port].toUds == []
    else
      && FlushOk(w, port, answers[0])
      && if Advances(answers[0]) then FlushAllowed(Flushed(w, port, answers[0]), port, answers[1..]) else |answers| == 1
  }

  predicate Advanced(answers: seq<WriteAnswer>)
  {
    answers != [] && Advances(answers[0])
  }

  // The loop so far: every write took some bytes.
  ghost predicate FlushSoFar(w: World, port: u32, answers: seq<WriteAnswer>, u: World)
    decreases |answers|
  {
    if answers == [] then u == w
    else
      && FlushOk(w, port, answers[0]) && Advances(answers[0])
      && FlushSoFar(Flushed(w, port, answers[0]), port, answers[1..], u)
  }

  lemma {:induction false} FlushMore(w: World, port: u32, answers: seq<WriteAnswer>, u: World, a: WriteAnswer)
    requires FlushSoFar(w, port, answers, u) && FlushOk(u, port, a)
    ensures Advances(a) ==> FlushSoFar(w, port, answers + [a], Flushed(u, port, a))
    ensures !Advances(a) ==> FlushAllowed(w, port, answers + [a])
    ensures FlushAll(w, port, answers + [a]) == Flushed(u, port, a)
    decreases |answers|
  {
    if answers == [] {
      assert answers + [a] == [a] && [a][1..] == [];
      assert FlushAll(Flushed(w, port, a), port, []) == Flushed(w, port, a);
    } else {
      assert (answers + [a])[1..] == answers[1..] + [a];
      FlushMore(Flushed(w, port, answers[0]), port, answers[1..], u, a);
    }
  }

  lemma {:induction false} FlushDone(w: World, port: u32, answers: seq<WriteAnswer>, u: World)
    requires FlushSoFar(w, port, answers, u) && (port !in u.conns || u.conns[port].toUds == [])
    ensures FlushAllowed(w, port, answers) && FlushAll(w, port, answers) == u
    decreases |answers|
  {
    if answers != [] { FlushDone(Flushed(w, port, answers[0]), port, answers[1..], u); }
  }

  // The guest hears of the new count when it moved.
  function Settle(w: World, port: u32, advanced: bool): World
  {
    if advanced && port in w.conns && w.conns[port].rxFwdCnt != w.conns[port].lastCreditSent then
      Tell(w, port, OP_CREDIT_UPDATE)
    else w
  }

  ghost function FlushToUds(w: World, port: u32, answers: seq<WriteAnswer>): World
  {
    Settle(FlushAll(w, port, answers), port, Advanced(answers))
  }

  lemma {:induction false} FlushAllKeeps(w: World, port: u32, answers: seq<WriteAnswer>)
    requires Good(w, Some(port)) && Quiet(w, port)
    ensures Good(FlushAll(w, port, answers), Some(port)) && Quiet(FlushAll(w, port, answers), port)
    decreases |answers|
  {
    if answers != [] && FlushOk(w, port, answers[0]) {
      FlushKeepsGood(w, port, answers[0]);
      FlushAllKeeps(Flushed(w, port, answers[0]), port, answers[1..]);
    }
  }

  lemma SettleKeepsGood(w: World, port: u32)
    requires Good(w, Some(port)) && Quiet(w, port)
    ensures Good(Settle(w, port, true), None)
  {
    if port in w.conns {
      if w.conns[port].rxFwdCnt != w.conns[port].lastCreditSent {
        TellKeepsGood(w, port, OP_CREDIT_UPDATE);
      } else {
        assert Settled(w.conns[port], OutOf(w, SocketOf(w, port)));
      }
    }
  }

  lemma IdleFlush(w: World, port: u32, answers: seq<WriteAnswer>)
    requires Good(w, None) && Quiet(w, port) && FlushAllowed(w, port, answers) && !Advanced(answers)
    ensures Good(FlushAll(w, port, answers), None)
  {
    if answers != [] {
      assert answers[1..] == [] && FlushAll(w, port, answers) == Flushed(w, port, answers[0]);
      assert Good(w, Some(port));
      FlushKeepsGood(w, port, answers[0]);
    }
  }

  // A flush, for any short writes, leaves the guest told of every byte the socket took.
  lemma FlushToUdsKeepsGood(w: World, port: u32, answers: seq<WriteAnswer>)
    requires Good(w, None) && FlushAllowed(w, port, answers)
    ensures Good(FlushToUds(w, port, answers), None)
  {
    if port in w.conns { assert Settled(w.conns[port], OutOf(w, SocketOf(w, port))); }
    if Advanced(answers) {
      FlushAllKeeps(w, port, answers);
      SettleKeepsGood(FlushAll(w, port, answers), port);
    } else {
      IdleFlush(w, port, answers);
    }
  }

  // --- packets from the guest -------------------------------------------------------------------------

  function Arrive(w: World, m: Message): World
  {
    w.(inbox := w.inbox + [m])
  }

  function Reported(c: Conn, m: Message): Conn
  {
    c.(credit := c.credit.UpdatePeer(m.hdr.bufAlloc, m.hdr.fwdCnt))
  }

  function Heard(f: Flow, m: Message): Flow
  {
    f.(log := f.log + [ReportOf(m)])
  }

  // What a message does to the connection it is for, before any flush. `greeted` is how much of the
  // greeting the socket took.
  function Addressed(c: Conn, m: Message): Conn
  {
    if m.hdr.op == OP_RW then Reported(c, m).(toUds := c.toUds + m.payload)
    else if m.hdr.op == OP_CREDIT_UPDATE then Reported(c, m)
    else if m.hdr.op == OP_RESPONSE && c.state.Connecting? then Reported(c, m).(state := Established)
    else c
  }

  function AddressedFlow(c: Conn, f: Flow, m: Message, greeted: nat): Flow
    requires greeted <= |OkLine(c.localPort)|
  {
    if m.hdr.op == OP_RW || m.hdr.op == OP_CREDIT_UPDATE then Heard(f, m)
    else if m.hdr.op == OP_RESPONSE && c.state.Connecting? then
      Heard(f, m).(greeting := Some(Greeting(|f.written|, OkLine(c.localPort)[..greeted])))
    else f
  }

  function AddressedLog(c: Conn, s: SocketLog, m: Message, greeted: nat): SocketLog
    requires greeted <= |OkLine(c.localPort)|
  {
    if m.hdr.op == OP_RESPONSE && c.state.Connecting? then s.(wrote := s.wrote + OkLine(c.localPort)[..greeted]) else s
  }

  predicate Resets(m: Message) { m.hdr.op == OP_SHUTDOWN || m.hdr.op == OP_RST }

  function Received(w: World, m: Message, greeted: nat): World
    requires Shaped(w) && m.hdr.dstPort in w.conns && greeted <= |OkLine(m.hdr.dstPort)|
  {
    var port := m.hdr.dstPort;
    var fd := SocketOf(w, port);
    assert Slotted(w, port);
    var c := w.conns[port];
    Arrive(w, m).(conns := w.conns[port := Addressed(c, m)],
    flows := w.flows[fd := AddressedFlow(c, w.flows[fd], m, greeted)],
    logs := w.logs[fd := AddressedLog(c, w.logs[fd], m, greeted)])
  }

  lemma ReportIsHeard(f: Flow, m: Message)
    ensures After(Heard(f, m).log).tracker == After(f.log).tracker.UpdatePeer(m.hdr.bufAlloc, m.hdr.fwdCnt)
    ensures After(Heard(f, m).log).sent == After(f.log).sent
    ensures SentSizes(Heard(f, m).log) == SentSizes(f.log) && Reports(Heard(f, m).log) == Reports(f.log) + [ReportOf(m)]
    ensures Obedient(Heard(f, m).log) <==> Obedient(f.log)
  {
    LogAppend(f.log, ReportOf(m));
  }

  lemma AddressedOutbound(c: Conn, f: Flow, s: SocketLog, out: Outgoing, m: Message, greeted: nat)
    requires Outbound(c, f, s, out) && greeted <= |OkLine(c.localPort)|
    ensures Outbound(Addressed(c, m), AddressedFlow(c, f, m, greeted), AddressedLog(c, s, m, greeted), out)
  {
    ReportIsHeard(f, m);
  }

  lemma AddressedInbound(c: Conn, f: Flow, s: SocketLog, heard: Incoming, m: Message, greeted: nat)
    requires Inbound(c, f, s, heard) && !Resets(m) && m.hdr.dstPort == c.localPort && greeted <= |OkLine(c.localPort)|
    ensures Inbound(Addressed(c, m), AddressedFlow(c, f, m, greeted), AddressedLog(c, s, m, greeted),
                    Hears(heard, m, c.localPort))
  {
    ReportIsHeard(f, m);
    if m.hdr.op == OP_RW {
      assert f.written + c.toUds + m.payload == f.written + (c.toUds + m.payload);
    } else if m.hdr.op == OP_RESPONSE && c.state.Connecting? {
      GreetedInbound(f, OkLine(c.localPort)[..greeted]);
    }
  }

  lemma GreetedInbound(f: Flow, bytes: seq<byte>)
    requires f.greeting.None?
    ensures Spliced(f.(greeting := Some(Greeting(|f.written|, bytes)))) == Spliced(f) + bytes
  {
  }

  lemma ReceivedReplaces(w: World, m: Message, greeted: nat)
    requires Shaped(w) && !Resets(m) && m.hdr.dstPort in w.conns && greeted <= |OkLine(m.hdr.dstPort)|
    ensures var fd := SocketOf(w, m.hdr.dstPort);
            var c := w.conns[m.hdr.dstPort];
            && c.localPort == m.hdr.dstPort
            && Replaces(w, Received(w, m, greeted), Addressed(c, m), AddressedFlow(c, w.flows[fd], m, greeted),
                        AddressedLog(c, w.logs[fd], m, greeted))
            && HeardOf(Received(w, m, greeted), fd) == Hears(HeardOf(w, fd), m, m.hdr.dstPort)
            && OutOf(Received(w, m, greeted), fd) == OutOf(w, fd)
  {
    var port := m.hdr.dstPort;
    var fd := SocketOf(w, port);
    assert Slotted(w, port) && Placed(w, w.opens[fd]);
    InAppend(w.inbox, m, w.opens[fd].inboxAt, port);
  }

  lemma ReceiveKeepsGood(w: World, m: Message, greeted: nat)
    requires Good(w, None) && !Resets(m) && m.hdr.dstPort in w.conns && greeted <= |OkLine(m.hdr.dstPort)|
    ensures Good(Received(w, m, greeted), None)
  {
    var port := m.hdr.dstPort;
    var fd := SocketOf(w, port);
    ReceivedReplaces(w, m, greeted);
    assert Joined(w, port) && Settled(w.conns[port], OutOf(w, fd));
    var c, f, s := w.conns[port], w.flows[fd], w.logs[fd];
    AddressedOutbound(c, f, s, OutOf(w, fd), m, greeted);
    AddressedInbound(c, f, s, HeardOf(w, fd), m, greeted);
    ReplaceKeepsGood(w, Received(w, m, greeted), Addressed(c, m), AddressedFlow(c, f, m, greeted),
                     AddressedLog(c, s, m, greeted));
  }
}
