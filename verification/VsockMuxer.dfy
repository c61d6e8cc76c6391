// The running vsock device: the reactor object, its receive ring and the host sockets. What the
// sockets answer is left open; every method is tied to the step of `VsockRuns` it takes.
module VsockMuxer {
  import opened Prelude
  import opened VsockProto
  import opened VsockWorld
  import opened VsockSteps
  import opened VsockRuns
  import opened Chains
  import opened VsockGuarantees
  import opened VsockPackets
  import Rx = RxBacklog

  // --- the host's sockets ------------------------------------------------------------------------

  // Non-blocking host sockets, numbered as they are accepted. Each logs the bytes it gave and took.
  class HostSockets {
    var count: nat
    ghost var logs: seq<SocketLog>

    ghost predicate Valid()
      reads this
    {
      count == |logs|
    }

    constructor ()
      ensures Valid() && logs == []
    {
      count, logs := 0, [];
    }

    method Accept() returns (fd: nat)
      requires Valid()
      modifies this
      ensures Valid() && fd == |old(logs)| && logs == old(logs) + [SocketLog([], [], false)]
    {
      fd := count;
      count := count + 1;
      logs := logs + [SocketLog([], [], false)];
    }

    // Up to `max` bytes, or none.
    method Read(fd: nat, max: nat) returns (r: ReadResult)
      requires Valid() && fd < |logs|
      modifies this`logs
      ensures Valid() && (r.Data? ==> 0 < |r.bytes| <= max)
      ensures logs == old(logs)[fd := match r
                                      case Data(bytes) => old(logs)[fd].(read := old(logs)[fd].read + bytes)
                                      case ReadBlocked => old(logs)[fd]
                                      case _ => old(logs)[fd].(ended := true)]
    {
      r := *;
      if r.Data? && !(0 < |r.bytes| <= max) { r := Eof; }
      match r {
        case Data(bytes) => logs := logs[fd := logs[fd].(read := logs[fd].read + bytes)];
        case ReadBlocked =>
        case _ => logs := logs[fd := logs[fd].(ended := true)];
      }
    }

    // Some prefix of `front`, or none.
    method Write(fd: nat, front: seq<byte>) returns (r: WriteResult)
      requires Valid() && fd < |logs|
      modifies this`logs
      ensures Valid() && (r.Wrote? ==> r.n <= |front|)
      ensures logs == old(logs)[fd := match r
                                      case Wrote(n) => old(logs)[fd].(wrote := old(logs)[fd].wrote + front[..n])
                                      case WriteBlocked => old(logs)[fd]
                                      case WriteFailed => old(logs)[fd].(ended := true)]
    {
      r := *;
      if r.Wrote? && r.n > |front| { r := WriteBlocked; }
      match r {
        case Wrote(n) => logs := logs[fd := logs[fd].(wrote := logs[fd].wrote + front[..n])];
        case WriteBlocked =>
        case WriteFailed => logs := logs[fd := logs[fd].(ended := true)];
      }
    }

    // All of `bytes`, or as far as the socket took them; an error is ignored.
    method WriteAll(fd: nat, bytes: seq<byte>) returns (ghost taken: nat)
      requires Valid() && fd < |logs|
      modifies this`logs
      ensures Valid() && taken <= |bytes|
      ensures logs == old(logs)[fd := old(logs)[fd].(wrote := old(logs)[fd].wrote + bytes[..taken])]
    {
      var k: int := *;
      taken := if 0 <= k <= |bytes| then k else |bytes|;
      logs := logs[fd := logs[fd].(wrote := logs[fd].wrote + bytes[..taken])];
    }
  }

  // The first contiguous stretch of a ring buffer: some nonempty prefix of its contents.
  method FrontSlice(buffer: seq<byte>) returns (front: seq<byte>)
    requires buffer != []
    ensures front != [] && front <= buffer
  {
    var k: int := *;
    if !(1 <= k <= |buffer|) { k := 1; }
    front := buffer[..k];
  }

  lemma ItemsPush(trace: seq<Rx.Event<Packet>>, pkt: Packet)
    ensures Rx.Items(trace + [Rx.Push(pkt)]) == Rx.Items(trace) + [pkt]
  {
    assert (trace + [Rx.Push(pkt)])[..|trace|] == trace;
  }

  // --- the reactor ---------------------------------------------------------------------------------

  class VsockWorker {
    const cid: u64
    const rx: Rx.RxRing<Packet>
    const net: HostSockets
    var ready: bool
    var conns: map<u32, Conn>
    var nextPort: u32
    ghost var opens: seq<Opening>
    ghost var flows: seq<Flow>
    ghost var inbox: seq<Message>
    ghost var hups: seq<u32>

    ghost function Value(): World
      reads this, rx, net
    {
      World(cid, ready, nextPort, conns, opens, net.logs, flows, Rx.Items(rx.trace), inbox, hups)
    }

    ghost predicate Wired()
      reads this, rx, net
    {
      rx.Valid() && rx.limit == VSOCK_BACKLOG_MAX && net.Valid()
    }

    ghost predicate Valid()
      reads this, rx, net
    {
      Wired() && Good(Value(), None)
    }

    constructor (cid: u64)
      ensures Valid() && fresh(rx) && fresh(net) && Value() == Start(cid) && rx.trace == []
    {
      this.cid := cid;
      rx := new Rx.RxRing<Packet>(VSOCK_BACKLOG_MAX);
      net := new HostSockets();
      ready, conns, nextPort := false, map[], FIRST_HOST_PORT;
      opens, flows, inbox, hups := [], [], [], [];
    }

    method PushToGuest(pkt: Packet)
      requires Wired()
      modifies rx
      ensures Wired() && Value() == Push(old(Value()), pkt) && Rx.Posts(rx.trace) == Rx.Posts(old(rx.trace))
    {
      ItemsPush(rx.trace, pkt);
      Rx.PostsPush(rx.trace, pkt);
      var _ := rx.PushToGuest(pkt);
    }

    method SendControl(port: u32, op: u16)
      requires Wired()
      modifies this`conns, rx
      ensures Wired() && Value() == Tell(old(Value()), port, op) && Rx.Posts(rx.trace) == Rx.Posts(old(rx.trace))
      ensures if port !in old(conns) then Value() == old(Value())
              else PushesOne(old(Value()), Value()) &&
                   IsFrom(Value().pushed[|old(Value()).pushed|], old(conns)[port], cid, op, [])
    {
      if port !in conns { return; }
      var c := conns[port];
      if op == OP_CREDIT_UPDATE { c := c.(lastCreditSent := c.rxFwdCnt); }
      conns := conns[port := c];
      PushToGuest(Packet(c.HeaderFor(cid, op, 0), []));
    }

    method SendRst(incoming: Header)
      requires Wired()
      modifies rx
      ensures Wired() && Rx.Posts(rx.trace) == Rx.Posts(old(rx.trace))
      ensures Value() == Push(old(Value()), RstPacket(incoming.srcCid, incoming.dstPort, incoming.srcPort))
      ensures PushesOne(old(Value()), Value()) &&
              IsReset(Value().pushed[|old(Value()).pushed|], incoming.srcCid, incoming.dstPort, incoming.srcPort)
    {
      PushToGuest(Packet(Header(HOST_CID, incoming.srcCid, incoming.dstPort, incoming.srcPort,
                                0, TYPE_STREAM, OP_RST, 0, 0, 0), []));
    }

    // Forget a connection, and with `reset` tell the guest.
    method CloseConn(port: u32, reset: bool)
      requires Wired()
      modifies this`conns, rx
      ensures Wired() && Rx.Posts(rx.trace) == Rx.Posts(old(rx.trace))
      ensures Value() == var w := old(Value());
                         if reset && port in w.conns then
                           Push(Drop(w, port), RstPacket(cid, w.conns[port].localPort, w.conns[port].guestPort))
                         else Drop(w, port)
    {
      if port !in conns {
        assert conns - {port} == conns;
        return;
      }
      var c := conns[port];
      conns := conns - {port};
      if reset { PushToGuest(RstPacket(cid, c.localPort, c.guestPort)); }
    }

    method SendRw(port: u32, data: seq<byte>)
      requires Wired() && Shaped(Value()) && port in conns && |data| < TWO32
      modifies this`conns, this`flows, rx
      ensures Wired() && Value() == VsockSteps.SendRw(old(Value()), port, data)
      ensures PushesOne(old(Value()), Value()) &&
              IsFrom(Value().pushed[|old(Value()).pushed|], old(conns)[port], cid, 5, data)
      ensures Rx.Posts(rx.trace) == Rx.Posts(old(rx.trace))
    {
      var c := conns[port];
      ghost var fd := SocketOf(Value(), port);
      conns := conns[port := c.(credit := c.credit.RecordSent(|data|))];
      flows := flows[fd := flows[fd].(log := flows[fd].log + [Sent(|data|)])];
      PushToGuest(Packet(c.HeaderFor(cid, OP_RW, |data|), data));
    }

    // One read from the socket, forwarded within the guest's window.
    method PumpOnce(port: u32) returns (r: ReadResult)
      requires Valid() && CanPump(Value(), port)
      modifies this`conns, this`flows, rx, net
      ensures Valid() && PumpOk(old(Value()), port, r) && Value() == Pumped(old(Value()), port, r)
      ensures Rx.Posts(rx.trace) == Rx.Posts(old(rx.trace))
    {
      ghost var w := Value();
      assert Slotted(w, port);
      var avail := Min(conns[port].credit.Available(), MAX_RW_PAYLOAD);
      r := net.Read(conns[port].uds, avail);
      PumpKeepsGood(w, port, r);
      match r {
        case Data(bytes) =>
          LogReadShape(w, port, bytes);
          SendRw(port, bytes);
        case ReadBlocked =>
          SameAgain(w.logs, w.conns[port].uds);
        case _ =>
          SendControl(port, OP_SHUTDOWN);
          CloseConn(port, false);
      }
    }

    // Forward what the socket has, within the guest's window.
    method PumpToGuest(port: u32) returns (ghost answers: seq<ReadResult>)
      requires Valid()
      modifies this`conns, this`flows, rx, net
      ensures Valid() && PumpAllowed(old(Value()), port, answers) && Value() == PumpAll(old(Value()), port, answers)
      ensures Rx.Posts(rx.trace) == Rx.Posts(old(rx.trace))
    {
      ghost var w := Value();
      answers := [];
      while port in conns && conns[port].state.Established? && conns[port].credit.Available() > 0
        invariant Valid() && PumpSoFar(w, port, answers, Value()) && Rx.Posts(rx.trace) == Rx.Posts(old(rx.trace))
        decreases if port in conns then conns[port].credit.Available() else 0
      {
        ghost var u := Value();
        var r := PumpOnce(port);
        PumpMore(w, port, answers, u, r);
        answers := answers + [r];
        if !r.Data? { return; }
        PumpShrinks(u, port, r);
      }
      PumpDone(w, port, answers, Value());
    }

    // One write to the socket. Returns whether it took any bytes.
    method FlushOnce(port: u32) returns (more: bool, ghost a: WriteAnswer)
      requires Wired() && Shaped(Value()) && port in conns && conns[port].toUds != []
      modifies this`conns, this`flows, rx, net
      ensures Wired() && FlushOk(old(Value()), port, a) && Value() == Flushed(old(Value()), port, a)
      ensures more == Advances(a) && (more ==> port in conns && |conns[port].toUds| < |old(conns)[port].toUds|)
      ensures Rx.Posts(rx.trace) == Rx.Posts(old(rx.trace))
    {
      ghost var w := Value();
      assert Slotted(w, port);
      var c := conns[port];
      var front := FrontSlice(c.toUds);
      var r := net.Write(c.uds, front);
      a := WriteAnswer(|front|, r);
      more := r.Wrote? && r.n > 0;
      if more {
        Took(port, r.n, front, w);
      } else {
        SameAgain(w.logs, c.uds);
        if r.WriteFailed? {
          SendControl(port, OP_RST);
          CloseConn(port, false);
        } else if r.Wrote? {
          assert w.logs[c.uds].wrote + front[..0] == w.logs[c.uds].wrote;
        }
      }
    }

    // Account for the bytes a write took.
    method Took(port: u32, n: nat, ghost front: seq<byte>, ghost w: World)
      requires Wired() && Shaped(w) && port in w.conns && 0 < n <= |front| && front <= w.conns[port].toUds
      requires Value() == w.(logs := w.logs[SocketOf(w, port) := w.logs[SocketOf(w, port)].(
                 wrote := w.logs[SocketOf(w, port)].wrote + front[..n])])
      modifies this`conns, this`flows
      ensures Wired() && Value() == Flushed(w, port, WriteAnswer(|front|, Wrote(n)))
      ensures port in conns && |conns[port].toUds| < |w.conns[port].toUds|
    {
      var c := conns[port];
      ghost var fd := SocketOf(w, port);
      assert front[..n] == c.toUds[..n];
      conns := conns[port := c.(toUds := c.toUds[n..], rxFwdCnt := (c.rxFwdCnt + n % TWO32) % TWO32)];
      flows := flows[fd := flows[fd].(written := flows[fd].written + c.toUds[..n])];
    }

    method FlushAll(port: u32) returns (advanced: bool, ghost answers: seq<WriteAnswer>)
      requires Valid()
      modifies this`conns, this`flows, rx, net
      ensures Wired() && FlushAllowed(old(Value()), port, answers) &&
              Value() == VsockSteps.FlushAll(old(Value()), port, answers)
      ensures advanced == Advanced(answers) && Rx.Posts(rx.trace) == Rx.Posts(old(rx.trace))
    {
      ghost var w := Value();
      SettledIsQuiet(w, port);
      answers, advanced := [], false;
      while port in conns && conns[port].toUds != []
        invariant Wired() && Good(Value(), Some(port)) && Quiet(Value(), port)
        invariant FlushSoFar(w, port, answers, Value()) && advanced == (answers != [])
        invariant Rx.Posts(rx.trace) == Rx.Posts(old(rx.trace))
        decreases if port in conns then |conns[port].toUds| else 0
      {
        ghost var u := Value();
        var more, a := FlushOnce(port);
        FlushKeepsGood(u, port, a);
        FlushMore(w, port, answers, u, a);
        ghost var longer := answers + [a];
        assert answers != [] ==> longer[0] == answers[0];
        answers := longer;
        if !more { return; }
        advanced := true;
      }
      FlushDone(w, port, answers, Value());
    }

    // Move buffered guest output to the socket and, if the count moved, tell the guest.
    method FlushToUds(port: u32) returns (ghost answers: seq<WriteAnswer>)
      requires Valid()
      modifies this`conns, this`flows, rx, net
      ensures Valid() && FlushAllowed(old(Value()), port, answers)
      ensures Value() == VsockSteps.FlushToUds(old(Value()), port, answers)
      ensures Rx.Posts(rx.trace) == Rx.Posts(old(rx.trace))
    {
      ghost var w := Value();
      var advanced;
      advanced, answers := FlushAll(port);
      FlushToUdsKeepsGood(w, port, answers);
      if advanced && port in conns && conns[port].rxFwdCnt != conns[port].lastCreditSent {
        SendControl(port, OP_CREDIT_UPDATE);
      }
    }

    // --- packets from the guest ------------------------------------------------------------------------

    // A packet that reports credit to its connection: data, a credit update, or the first response.
    method Address(hdr: Header, payload: seq<byte>, ghost m: Message) returns (ghost greeted: nat)
      requires Valid() && m.hdr == hdr && m.payload == payload && hdr.dstPort in conns
      requires hdr.op == OP_RW || hdr.op == OP_CREDIT_UPDATE ||
               (hdr.op == OP_RESPONSE && conns[hdr.dstPort].state.Connecting?)
      modifies this`conns, this`flows, this`inbox, net
      ensures Wired() && greeted <= |OkLine(hdr.dstPort)| && (hdr.op != OP_RESPONSE ==> greeted == 0)
      ensures Value() == Received(old(Value()), m, greeted)
    {
      ghost var w := Value();
      var port := hdr.dstPort;
      assert Slotted(w, port);
      var c := conns[port];
      ghost var fd := SocketOf(w, port);
      greeted := 0;
      var d := c.(credit := c.credit.UpdatePeer(hdr.bufAlloc, hdr.fwdCnt));
      if hdr.op == OP_RW {
        d := d.(toUds := d.toUds + payload);
      } else if hdr.op == OP_RESPONSE {
        d := d.(state := Established);
        greeted := net.WriteAll(c.uds, OkLine(port));
      }
      if hdr.op != OP_RESPONSE { SameAgain(w.logs, fd); }
      conns := conns[port := d];
      flows := flows[fd := AddressedFlow(c, flows[fd], m, greeted)];
      inbox := inbox + [m];
    }

    // The same, and data is flushed at once.
    method AddressAndFlush(hdr: Header, payload: seq<byte>, ghost m: Message) returns (ghost a: Answer)
      requires Valid() && m.hdr == hdr && m.payload == payload && hdr.dstPort in conns
      requires hdr.op == OP_RW || hdr.op == OP_CREDIT_UPDATE ||
               (hdr.op == OP_RESPONSE && conns[hdr.dstPort].state.Connecting?)
      modifies this`conns, this`flows, this`inbox, rx, net
      ensures Wired() && a.greeted <= |OkLine(hdr.dstPort)| && (hdr.op != OP_RESPONSE ==> a.greeted == 0)
      ensures hdr.op == OP_RW ==> FlushAllowed(Received(old(Value()), m, 0), hdr.dstPort, a.writes)
      ensures Value() ==
              if hdr.op == OP_RW then VsockSteps.FlushToUds(Received(old(Value()), m, 0), hdr.dstPort, a.writes)
              else Received(old(Value()), m, a.greeted)
      ensures Rx.Posts(rx.trace) == Rx.Posts(old(rx.trace))
    {
      ghost var w := Value();
      ghost var greeted := Address(hdr, payload, m);
      ReceiveKeepsGood(w, m, greeted);
      ghost var answers: seq<WriteAnswer> := [];
      if hdr.op == OP_RW { answers := FlushToUds(hdr.dstPort); }
      a := Answer(answers, [], greeted, 0);
    }

    method HandleGuestPacket(hdr: Header, payload: seq<byte>, ghost consumed: nat, ghost seen: nat)
      returns (ghost a: Answer)
      requires Valid()
      modifies this`ready, this`conns, this`flows, this`inbox, rx, net
      ensures Valid() && HandleOk(old(Value()), Message(hdr, payload, consumed, seen), a)
      ensures Value() == Handled(old(Value()), Message(hdr, payload, consumed, seen), a)
      ensures Rx.Posts(rx.trace) == Rx.Posts(old(rx.trace))
    {
      ghost var w, m := Value(), Message(hdr, payload, consumed, seen);
      var port := hdr.dstPort;
      a := Answer([], [], 0, 0);
      if port in conns && (hdr.op == OP_RW || hdr.op == OP_CREDIT_UPDATE ||
                           (hdr.op == OP_RESPONSE && conns[port].state.Connecting?)) {
        a := AddressAndFlush(hdr, payload, m);
        HandleAddressed(w, m, a);
      } else {
        Answerless(hdr, m);
      }
      HandleKeepsGood(w, m, a);
    }

    // A packet that changes no credit: requests, credit requests, resets, and strays.
    method Answerless(hdr: Header, ghost m: Message)
      requires Valid() && m.hdr == hdr
      requires hdr.dstPort in conns ==> hdr.op != OP_RW && hdr.op != OP_CREDIT_UPDATE &&
                                        (hdr.op == OP_RESPONSE ==> conns[hdr.dstPort].state.Established?)
      modifies this`ready, this`conns, this`inbox, rx
      ensures Wired() && Value() == Handled(old(Value()), m, Answer([], [], 0, 0))
      ensures Rx.Posts(rx.trace) == Rx.Posts(old(rx.trace))
    {
      inbox := inbox + [m];
      if hdr.op == OP_REQUEST {
        if hdr.dstPort == BOOT_PORT { ready := true; }
        SendRst(hdr);
      } else if hdr.op == OP_CREDIT_REQUEST {
        SendControl(hdr.dstPort, OP_CREDIT_UPDATE);
      } else if hdr.op == OP_SHUTDOWN {
        SendRst(hdr);
        CloseConn(hdr.dstPort, false);
      } else if hdr.op == OP_RST {
        CloseConn(hdr.dstPort, false);
      }
    }

    // One packet off the transmit queue.
    method Dispatch(raw: seq<byte>, ghost consumed: nat, ghost seen: nat) returns (ghost a: Answer)
      requires Valid()
      modifies this`ready, this`conns, this`flows, this`inbox, rx, net
      ensures Valid() && StepOk(old(Value()), Arrives(raw, consumed, seen), a)
      ensures Value() == Stepped(old(Value()), Arrives(raw, consumed, seen), a)
      ensures Rx.Posts(rx.trace) == Rx.Posts(old(rx.trace))
    {
      a := Answer([], [], 0, 0);
      var hdr := Parse(raw);
      if hdr.Some? {
        var payload := raw[HEADER_LEN..];
        a := HandleGuestPacket(hdr.value, payload[..Min(hdr.value.len, |payload|)], consumed, seen);
      }
    }

    // --- new connections ---------------------------------------------------------------------------------

    // The first free port from `nextPort` on.
    method AllocPort() returns (p: u32, ghost k: nat)
      requires FIRST_HOST_PORT <= nextPort && |conns| < PORT_SPACE
      modifies this`nextPort
      ensures p == PortAt(old(nextPort), k) && nextPort == PortAt(old(nextPort), k + 1)
      ensures p !in conns && forall j :: 0 <= j < k ==> PortAt(old(nextPort), j) in conns
    {
      ghost var start := nextPort;
      k := 0;
      ghost var visited: set<u32> := {};
      PortAtStart(start);
      while true
        invariant FIRST_HOST_PORT <= nextPort && nextPort == PortAt(start, k)
        invariant visited <= conns.Keys && |visited| == k
        invariant forall v :: v in visited ==> Passed(start, k, v)
        invariant forall j :: 0 <= j < k ==> PortAt(start, j) in conns
        decreases |conns| - k
      {
        p := nextPort;
        NextPortAt(start, k);
        nextPort := if nextPort + 1 < TWO32 then nextPort + 1 else FIRST_HOST_PORT;
        if p !in conns && p != BOOT_PORT { return; }
        Cardinality(visited, conns.Keys);
        NotPassed(start, k);
        visited := visited + {p};
        Cardinality(visited, conns.Keys);
        k := k + 1;
      }
    }

    // A new socket and its connection under `port`.
    method Insert(port: u32, guestPort: u32)
      requires Wired() && |opens| == |net.logs|
      modifies this`conns, this`opens, this`flows, net
      ensures Wired() && Value() == Inserted(old(Value()), port, guestPort)
    {
      var fd := net.Accept();
      conns := conns[port := Conn(port, guestPort, fd, Connecting, NO_CREDIT, 0, 0, [])];
      opens := opens + [Opening(port, guestPort, |Rx.Items(rx.trace)|, |inbox|, |hups|)];
      flows := flows + [Flow([], [], None)];
    }

    // A completed `CONNECT` line: open a connection and ask the guest for it.
    method Open(guestPort: u32) returns (ghost a: Answer)
      requires Valid()
      modifies this`conns, this`nextPort, this`opens, this`flows, rx, net
      ensures Valid() && StepOk(old(Value()), Connects(guestPort), a)
      ensures Value() == Stepped(old(Value()), Connects(guestPort), a)
      ensures Rx.Posts(rx.trace) == Rx.Posts(old(rx.trace))
    {
      ghost var w := Value();
      a := Answer([], [], 0, 0);
      // With every port taken the search for one would never end.
      if |conns| >= PORT_SPACE { return; }
      var port;
      ghost var k;
      port, k := AllocPort();
      a := Answer([], [], 0, k);
      Insert(port, guestPort);
      SendControl(port, OP_REQUEST);
      OpenKeepsGood(w, guestPort, k);
    }

    // --- the event loop ------------------------------------------------------------------------------------

    // What polling reported for one connection's socket.
    method Serve(port: u32, pollOut: bool, pollIn: bool, hangup: bool) returns (ghost a: Answer)
      requires Valid()
      modifies this`conns, this`flows, this`hups, rx, net
      ensures Valid() && StepOk(old(Value()), SocketReady(port, pollOut, pollIn, hangup), a)
      ensures Value() == Stepped(old(Value()), SocketReady(port, pollOut, pollIn, hangup), a)
      ensures Rx.Posts(rx.trace) == Rx.Posts(old(rx.trace))
    {
      ghost var w := Value();
      ghost var writes: seq<WriteAnswer> := [];
      ghost var gives: seq<ReadResult> := [];
      if pollOut { writes := FlushToUds(port); }
      if pollIn { gives := PumpToGuest(port); }
      a := Answer(writes, gives, 0, 0);
      if hangup { HangUp(port); }
    }

    // The transmit queue: every packet in turn. `worlds` are the states passed through.
    method ProcessTx(packets: seq<TxPacket>) returns (ghost worlds: seq<World>, ghost answers: seq<Answer>)
      requires Valid()
      modifies this`ready, this`conns, this`flows, this`inbox, rx, net
      ensures Valid() && Runs(worlds, Arrivals(packets), answers)
      ensures worlds[0] == old(Value()) && worlds[|worlds| - 1] == Value()
      ensures Rx.Posts(rx.trace) == Rx.Posts(old(rx.trace))
    {
      worlds, answers := [Value()], [];
      for i := 0 to |packets|
        invariant Valid() && Runs(worlds, Arrivals(packets[..i]), answers)
        invariant worlds[0] == old(Value()) && worlds[|worlds| - 1] == Value()
        invariant Rx.Posts(rx.trace) == Rx.Posts(old(rx.trace))
      {
        ghost var a := Dispatch(packets[i].raw, packets[i].consumed, packets[i].seen);
        AppendArrival(packets, i, worlds, answers, a, Value());
        worlds, answers := worlds + [Value()], answers + [a];
      }
      assert packets[..|packets|] == packets;
    }

    // One event of the poll loop.
    method Handle(event: Event) returns (ghost worlds: seq<World>, ghost answers: seq<Answer>)
      requires Valid()
      modifies this, rx, net
      ensures Valid() && Runs(worlds, InputsOf(event), answers)
      ensures worlds[0] == old(Value()) && worlds[|worlds| - 1] == Value()
      ensures Rx.Posts(rx.trace) == Rx.Posts(old(rx.trace)) + PostsOf(event)
    {
      worlds, answers := [Value()], [];
      match event {
        case RxEvt(chains) =>
          PostAndDrain(chains);
        case TxEvt(packets) =>
          worlds, answers := ProcessTx(packets);
        case Handshake(guestPort) =>
          worlds, answers := HandleHandshake(guestPort);
        case Ready(port, pollOut, pollIn, hangup) =>
          worlds, answers := HandleReady(port, pollOut, pollIn, hangup);
      }
    }

    method HandleHandshake(guestPort: u32) returns (ghost worlds: seq<World>, ghost answers: seq<Answer>)
      requires Valid()
      modifies this`conns, this`nextPort, this`opens, this`flows, rx, net
      ensures Valid() && Runs(worlds, [Connects(guestPort)], answers)
      ensures worlds[0] == old(Value()) && worlds[|worlds| - 1] == Value()
      ensures Rx.Posts(rx.trace) == Rx.Posts(old(rx.trace))
    {
      ghost var a := Open(guestPort);
      ChainOne(StepsTo, old(Value()), Connects(guestPort), a, Value());
      worlds, answers := [old(Value()), Value()], [a];
    }

    method HandleReady(port: u32, pollOut: bool, pollIn: bool, hangup: bool)
      returns (ghost worlds: seq<World>, ghost answers: seq<Answer>)
      requires Valid()
      modifies this`conns, this`flows, this`hups, rx, net
      ensures Valid() && Runs(worlds, [SocketReady(port, pollOut, pollIn, hangup)], answers)
      ensures worlds[0] == old(Value()) && worlds[|worlds| - 1] == Value()
      ensures Rx.Posts(rx.trace) == Rx.Posts(old(rx.trace))
    {
      ghost var a := Serve(port, pollOut, pollIn, hangup);
      ChainOne(StepsTo, old(Value()), SocketReady(port, pollOut, pollIn, hangup), a, Value());
      worlds, answers := [old(Value()), Value()], [a];
    }

    // The guest posted rx buffers: what is backlogged goes out first.
    method PostAndDrain(chains: nat)
      requires Valid()
      modifies rx
      ensures Valid() && Value() == old(Value())
      ensures Rx.Posts(rx.trace) == Rx.Posts(old(rx.trace)) + [Rx.Post(chains), Rx.Notify]
    {
      QuietEvents(rx.trace, chains);
      rx.Post(chains);
      var _ := rx.DrainRxBacklog();
    }

    // Any events, from any valid state, with any answers of the sockets: the device takes a run of
    // `VsockRuns` whose inputs are those events, so all that is proved of every run holds of it; and
    // its receive ring saw exactly the posts and notifications among them.
    method React(events: seq<Event>) returns (ghost worlds: seq<World>, ghost answers: seq<Answer>)
      requires Valid()
      modifies this, rx, net
      ensures Valid() && Runs(worlds, AllInputs(events), answers)
      ensures worlds[0] == old(Value()) && worlds[|worlds| - 1] == Value()
      ensures Rx.Posts(rx.trace) == Rx.Posts(old(rx.trace)) + AllPosts(events)
    {
      worlds, answers := [Value()], [];
      for i := 0 to |events|
        invariant Valid() && Runs(worlds, AllInputs(events[..i]), answers)
        invariant worlds[0] == old(Value()) && worlds[|worlds| - 1] == Value()
        invariant Rx.Posts(rx.trace) == Rx.Posts(old(rx.trace)) + AllPosts(events[..i])
      {
        ghost var more, given := Handle(events[i]);
        AppendEvent(events, i, worlds, answers, more, given);
        AppendPosts(events, i, Rx.Posts(old(rx.trace)));
        worlds, answers := worlds + more[1..], answers + given;
      }
      assert events[..|events|] == events;
    }

    method HangUp(port: u32)
      requires Valid()
      modifies this`conns, this`hups, rx
      ensures Valid() && Value() == VsockRuns.HangUp(old(Value()), port) &&
              Rx.Posts(rx.trace) == Rx.Posts(old(rx.trace))
    {
      HangUpKeepsGood(Value(), port);
      hups := hups + [port];
      if port in conns { CloseConn(port, true); }
    }
  }

  // --- events ----------------------------------------------------------------------------------------------

  datatype TxPacket = TxPacket(raw: seq<byte>, consumed: nat, seen: nat)

  datatype Event =
    | RxEvt(chains: nat)
    | TxEvt(packets: seq<TxPacket>)
    | Handshake(guestPort: u32)
    | Ready(port: u32, pollOut: bool, pollIn: bool, hangup: bool)

  function ArrivalOf(p: TxPacket): Input
  {
    Arrives(p.raw, p.consumed, p.seen)
  }

  function Arrivals(packets: seq<TxPacket>): seq<Input>
  {
    if packets == [] then [] else Arrivals(packets[..|packets| - 1]) + [ArrivalOf(packets[|packets| - 1])]
  }

  function InputsOf(event: Event): seq<Input>
  {
    match event
    case RxEvt(_) => []
    case TxEvt(packets) => Arrivals(packets)
    case Handshake(guestPort) => [Connects(guestPort)]
    case Ready(port, pollOut, pollIn, hangup) => [SocketReady(port, pollOut, pollIn, hangup)]
  }

  function PostsOf(event: Event): seq<Rx.Event<Packet>>
  {
    if event.RxEvt? then [Rx.Post(event.chains), Rx.Notify] else []
  }

  function AllInputs(events: seq<Event>): seq<Input>
  {
    if events == [] then [] else AllInputs(events[..|events| - 1]) + InputsOf(events[|events| - 1])
  }

  function AllPosts(events: seq<Event>): seq<Rx.Event<Packet>>
  {
    if events == [] then [] else AllPosts(events[..|events| - 1]) + PostsOf(events[|events| - 1])
  }

  lemma NextArrival(packets: seq<TxPacket>, i: nat)
    requires i < |packets|
    ensures Arrivals(packets[..i + 1]) == Arrivals(packets[..i]) + [ArrivalOf(packets[i])]
  {
    assert packets[..i + 1][..i] == packets[..i];
  }

  lemma NextEvent(events: seq<Event>, i: nat)
    requires i < |events|
    ensures AllInputs(events[..i + 1]) == AllInputs(events[..i]) + InputsOf(events[i])
    ensures AllPosts(events[..i + 1]) == AllPosts(events[..i]) + PostsOf(events[i])
  {
    assert events[..i + 1][..i] == events[..i];
  }

  lemma AppendArrival(packets: seq<TxPacket>, i: nat, worlds: seq<World>, answers: seq<Answer>, a: Answer, v: World)
    requires i < |packets| && Runs(worlds, Arrivals(packets[..i]), answers)
    requires StepsTo(worlds[|worlds| - 1], ArrivalOf(packets[i]), a, v)
    ensures Runs(worlds + [v], Arrivals(packets[..i + 1]), answers + [a])
  {
    NextArrival(packets, i);
    var before := worlds[|worlds| - 1];
    ChainOne(StepsTo, before, ArrivalOf(packets[i]), a, v);
    ChainConcat(StepsTo, worlds, Arrivals(packets[..i]), answers, [before, v], [ArrivalOf(packets[i])], [a]);
    assert [before, v][1..] == [v];
  }

  lemma AppendEvent(events: seq<Event>, i: nat, worlds: seq<World>, answers: seq<Answer>, more: seq<World>,
                    given: seq<Answer>)
    requires i < |events| && Runs(worlds, AllInputs(events[..i]), answers) && Runs(more, InputsOf(events[i]), given)
    requires worlds[|worlds| - 1] == more[0]
    ensures Runs(worlds + more[1..], AllInputs(events[..i + 1]), answers + given)
    ensures (worlds + more[1..])[0] == worlds[0] && (worlds + more[1..])[|worlds + more[1..]| - 1] == more[|more| - 1]
  {
    NextEvent(events, i);
    ChainConcat(StepsTo, worlds, AllInputs(events[..i]), answers, more, InputsOf(events[i]), given);
  }

  lemma AppendPosts(events: seq<Event>, i: nat, base: seq<Rx.Event<Packet>>)
    requires i < |events|
    ensures base + AllPosts(events[..i]) + PostsOf(events[i]) == base + AllPosts(events[..i + 1])
  {
    NextEvent(events, i);
  }

  // Posting and notifying push nothing.
  lemma QuietEvent(trace: seq<Rx.Event<Packet>>, e: Rx.Event<Packet>)
    requires !e.Push?
    ensures Rx.Items(trace + [e]) == Rx.Items(trace) && Rx.Posts(trace + [e]) == Rx.Posts(trace) + [e]
  {
    assert (trace + [e])[..|trace|] == trace;
  }

  lemma QuietEvents(trace: seq<Rx.Event<Packet>>, chains: nat)
    ensures Rx.Items(trace + [Rx.Post(chains)] + [Rx.Notify]) == Rx.Items(trace)
    ensures Rx.Posts(trace + [Rx.Post(chains)] + [Rx.Notify]) == Rx.Posts(trace) + [Rx.Post(chains), Rx.Notify]
  {
    QuietEvent(trace, Rx.Post(chains));
    QuietEvent(trace + [Rx.Post(chains)], Rx.Notify);
  }

  predicate Passed(start: u32, k: nat, v: u32)
    requires FIRST_HOST_PORT <= start
  {
    exists j: nat :: j < k && v == PortAt(start, j)
  }

  lemma PortsDiffer(start: u32, j: nat, k: nat)
    requires FIRST_HOST_PORT <= start && j < k < PORT_SPACE
    ensures PortAt(start, j) != PortAt(start, k)
  {
  }

  lemma PortAtStart(start: u32)
    requires FIRST_HOST_PORT <= start
    ensures PortAt(start, 0) == start
  {
  }

  lemma NextPortAt(start: u32, k: nat)
    requires FIRST_HOST_PORT <= start
    ensures PortAt(start, k + 1) == if PortAt(start, k) + 1 < TWO32 then PortAt(start, k) + 1 else FIRST_HOST_PORT
    ensures Passed(start, k + 1, PortAt(start, k))
    ensures forall v :: Passed(start, k, v) ==> Passed(start, k + 1, v)
  {
  }

  lemma NotPassed(start: u32, k: nat)
    requires FIRST_HOST_PORT <= start && k < PORT_SPACE
    ensures !Passed(start, k, PortAt(start, k))
  {
    forall j: nat | j < k ensures PortAt(start, j) != PortAt(start, k) {
      PortsDiffer(start, j, k);
    }
  }

  lemma Cardinality(a: set<u32>, b: set<u32>)
    requires a <= b
    ensures |a| <= |b|
  {
    assert b == a + (b - a);
  }

  lemma SettledIsQuiet(w: World, port: u32)
    requires Good(w, None)
    ensures Good(w, Some(port)) && Quiet(w, port)
  {
    if port in w.conns { assert Settled(w.conns[port], OutOf(w, SocketOf(w, port))); }
  }
}
