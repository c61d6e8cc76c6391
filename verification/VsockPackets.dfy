// What the guest is sent, packet by packet and field by field, over every run: on which occasion each
// packet is pushed, and what section 5.10.6 of VIRTIO 1.1 has it carry. The numbers are the wire's: CID 2
// is the host, type 1 a stream, and operations 1 to 7 are request, response, reset, shutdown, data, credit
// update and credit request.
module VsockPackets {
  import opened Prelude
  import opened VsockProto
  import opened VsockWorld
  import opened VsockSteps
  import opened VsockRuns
  import opened VsockForward

  // --- the packets ---------------------------------------------------------------------------------------

  // A packet of the connection opened as `o`: from the host to the guest's port, with its own length and
  // the host's buffer size. Only data packets carry bytes, at most 4096 of them.
  predicate OfConnection(pkt: Packet, cid: u64, o: Opening)
  {
    && pkt.hdr.srcCid == 2 && pkt.hdr.dstCid == cid && pkt.hdr.srcPort == o.port && pkt.hdr.dstPort == o.guestPort
    && pkt.hdr.len == |pkt.data| && pkt.hdr.kind == 1 && pkt.hdr.flags == 0 && pkt.hdr.bufAlloc == 256 * 1024
    && |pkt.data| <= 4096 && (pkt.hdr.op != 5 ==> pkt.data == [])
  }

  // The packet that says `op` for a connection as it stands, with the count of bytes taken off it.
  predicate IsFrom(pkt: Packet, c: Conn, cid: u64, op: u16, data: seq<byte>)
  {
    && pkt.hdr.srcCid == 2 && pkt.hdr.dstCid == cid && pkt.hdr.srcPort == c.localPort && pkt.hdr.dstPort == c.guestPort
    && pkt.hdr.len == |data| && pkt.hdr.kind == 1 && pkt.hdr.op == op && pkt.hdr.flags == 0
    && pkt.hdr.bufAlloc == 256 * 1024 && pkt.hdr.fwdCnt == c.rxFwdCnt && pkt.data == data
  }

  // The one packet a step pushed.
  ghost predicate PushesOne(w: World, v: World)
  {
    |v.pushed| == |w.pushed| + 1 && v.pushed[..|w.pushed|] == w.pushed
  }

  // A reset with nothing in it, to a port of a guest.
  predicate IsReset(pkt: Packet, cid: u64, from: u32, to: u32)
  {
    && pkt.hdr.srcCid == 2 && pkt.hdr.dstCid == cid && pkt.hdr.srcPort == from && pkt.hdr.dstPort == to
    && pkt.hdr.len == 0 && pkt.hdr.kind == 1 && pkt.hdr.op == 3 && pkt.hdr.flags == 0
    && pkt.hdr.bufAlloc == 0 && pkt.hdr.fwdCnt == 0 && pkt.data == []
  }

  predicate ResetOf(pkt: Packet, cid: u64, o: Opening)
  {
    IsReset(pkt, cid, o.port, o.guestPort)
  }

  // The reset that answers a message goes to its sender, with the ports swapped.
  predicate ResetFor(pkt: Packet, m: Message)
  {
    IsReset(pkt, m.hdr.srcCid, m.hdr.dstPort, m.hdr.srcPort)
  }

  // --- what one socket's connection is sent ---------------------------------------------------------------

  // From `w` to `v` only the connection of `port` was sent packets, of these operations.
  ghost predicate Speaks(w: World, v: World, port: u32)
    requires port in w.conns && w.conns[port].uds < |w.opens|
  {
    && v.cid == w.cid && v.opens == w.opens && w.pushed <= v.pushed
    && (forall j :: |w.pushed| <= j < |v.pushed| ==> OfConnection(v.pushed[j], w.cid, w.opens[w.conns[port].uds]))
    && (port in v.conns ==> v.conns[port].uds == w.conns[port].uds)
  }

  // Data, and last of all a shutdown exactly if the connection ended.
  ghost predicate Pumps(w: World, v: World, port: u32)
    requires port in w.conns && w.conns[port].uds < |w.opens|
  {
    && Speaks(w, v, port)
    && (forall j :: |w.pushed| <= j < |v.pushed| - 1 ==> v.pushed[j].hdr.op == 5)
    && (|w.pushed| < |v.pushed| ==> v.pushed[|v.pushed| - 1].hdr.op == if port in v.conns then 5 else 4)
    && (port !in v.conns ==> |w.pushed| < |v.pushed|)
  }

  // At most one packet: a reset exactly if the connection ended, else a credit update.
  ghost predicate Flushes(w: World, v: World, port: u32)
    requires port in w.conns && w.conns[port].uds < |w.opens|
  {
    && Speaks(w, v, port) && |v.pushed| <= |w.pushed| + 1
    && (|w.pushed| < |v.pushed| ==> v.pushed[|w.pushed|].hdr.op == if port in v.conns then 6 else 3)
    && (port !in v.conns ==> |w.pushed| < |v.pushed|)
  }

  lemma PumpSays(w: World, port: u32, r: ReadResult)
    requires PumpOk(w, port, r) && Slotted(w, port)
    ensures Pumps(w, Pumped(w, port, r), port)
  {
  }

  lemma PumpsOn(w: World, u: World, v: World, port: u32)
    requires Known(w, port) && Pumps(w, u, port) && Known(u, port) && Pumps(u, v, port)
    ensures Pumps(w, v, port)
  {
  }

  lemma {:induction false} PumpAllSays(w: World, port: u32, answers: seq<ReadResult>)
    requires Known(w, port)
    ensures Pumps(w, PumpAll(w, port, answers), port)
    decreases |answers|
  {
    if answers != [] && PumpOk(w, port, answers[0]) {
      var u := Pumped(w, port, answers[0]);
      PumpSays(w, port, answers[0]);
      if Known(u, port) {
        PumpAllSays(u, port, answers[1..]);
        PumpsOn(w, u, PumpAll(u, port, answers[1..]), port);
      }
    }
  }

  // Writing says nothing unless it fails.
  ghost predicate Writes(w: World, v: World, port: u32)
    requires port in w.conns && w.conns[port].uds < |w.opens|
  {
    Flushes(w, v, port) && (port in v.conns ==> v.pushed == w.pushed)
  }

  lemma FlushSays(w: World, port: u32, a: WriteAnswer)
    requires FlushOk(w, port, a) && Slotted(w, port)
    ensures Writes(w, Flushed(w, port, a), port)
  {
  }

  lemma WritesOn(w: World, u: World, v: World, port: u32)
    requires Known(w, port) && Writes(w, u, port) && Known(u, port) && Writes(u, v, port)
    ensures Writes(w, v, port)
  {
  }

  lemma {:induction false} FlushAllSays(w: World, port: u32, answers: seq<WriteAnswer>)
    requires Known(w, port)
    ensures Writes(w, FlushAll(w, port, answers), port)
    decreases |answers|
  {
    if answers != [] && FlushOk(w, port, answers[0]) {
      var u := Flushed(w, port, answers[0]);
      FlushSays(w, port, answers[0]);
      if Known(u, port) {
        FlushAllSays(u, port, answers[1..]);
        WritesOn(w, u, FlushAll(u, port, answers[1..]), port);
      }
    }
  }

  lemma TellSays(w: World, port: u32, op: u16)
    requires Known(w, port)
    ensures var v := Tell(w, port, op);
            && Speaks(w, v, port) && |v.pushed| == |w.pushed| + 1 && v.pushed[|w.pushed|].hdr.op == op
            && port in v.conns
  {
  }

  lemma FlushToUdsSays(w: World, port: u32, answers: seq<WriteAnswer>)
    requires Good(w, None) && port in w.conns
    ensures Known(w, port) && Flushes(w, FlushToUds(w, port, answers), port)
  {
    var u := FlushAll(w, port, answers);
    GoodIsKnown(w, port, None);
    FlushAllSays(w, port, answers);
    assert Settled(w.conns[port], OutOf(w, w.conns[port].uds)) && Good(w, Some(port));
    FlushAllKeeps(w, port, answers);
    if port in u.conns {
      GoodIsKnown(u, port, Some(port));
      TellSays(u, port, OP_CREDIT_UPDATE);
    }
  }

  // --- what every step sends -------------------------------------------------------------------------------

  // The packets a step pushed.
  function News(w: World, v: World): seq<Packet>
  {
    if |w.pushed| <= |v.pushed| then v.pushed[|w.pushed|..] else []
  }

  // A message is answered by its operation: requests and shutdowns with a reset, a request for credit with
  // an update, data with at most one packet, anything else with nothing.
  ghost predicate Replies(w: World, m: Message, v: World)
  {
    var port, news := m.hdr.dstPort, News(w, v);
    if m.hdr.op == 1 || m.hdr.op == 4 then |news| == 1 && ResetFor(news[0], m)
    else if port in w.conns && w.conns[port].uds < |w.opens| && m.hdr.op == 7 then
      |news| == 1 && OfConnection(news[0], w.cid, w.opens[w.conns[port].uds]) && news[0].hdr.op == 6
    else if port in w.conns && w.conns[port].uds < |w.opens| && m.hdr.op == 5 then Flushes(w, v, port)
    else news == []
  }

  // A completed handshake is announced to the guest port asked for, from a port not in use, and the search
  // for the next one starts behind it.
  ghost predicate Announces(w: World, guestPort: u32, v: World)
  {
    var news, fd := News(w, v), |w.opens|;
    && |v.opens| == fd + 1 && v.opens[..fd] == w.opens && |news| == 1
    && v.opens[fd].pushedAt == |w.pushed| && v.opens[fd].guestPort == guestPort && v.opens[fd].port !in w.conns &&
        0x4000_0000 <= v.opens[fd].port
    && OfConnection(news[0], w.cid, v.opens[fd]) && news[0].hdr.op == 1
    && v.nextPort == if v.opens[fd].port == 0xFFFF_FFFF then 0x4000_0000 else v.opens[fd].port + 1
  }

  // A socket's packets are its connection's, and the last one tells the guest if it ended.
  ghost predicate Talks(w: World, v: World, port: u32)
    requires port in w.conns && w.conns[port].uds < |w.opens|
  {
    && Speaks(w, v, port)
    && (forall j :: |w.pushed| <= j < |v.pushed| ==> 3 <= v.pushed[j].hdr.op <= 6)
    && (port !in v.conns ==> |w.pushed| < |v.pushed| && 3 <= v.pushed[|v.pushed| - 1].hdr.op <= 4)
  }

  // A hang-up ends the connection, with a reset if nothing did before.
  ghost predicate Serves(w: World, port: u32, hangup: bool, v: World)
    requires port in w.conns && w.conns[port].uds < |w.opens|
  {
    || (Talks(w, v, port) && (hangup ==> port !in v.conns))
    || (&& hangup && port !in v.conns && |w.pushed| < |v.pushed|
        && ResetOf(v.pushed[|v.pushed| - 1], w.cid, w.opens[w.conns[port].uds])
        && (forall j :: |w.pushed| <= j < |v.pushed| - 1 ==>
              OfConnection(v.pushed[j], w.cid, w.opens[w.conns[port].uds]) && 3 <= v.pushed[j].hdr.op <= 6))
  }

  ghost predicate Says(w: World, input: Input, v: World)
  {
    && v.cid == w.cid && w.pushed <= v.pushed && w.opens <= v.opens
    && (v.opens == w.opens || (input.Connects? && |w.conns| < PORT_SPACE))
    && match input
       case Arrives(raw, consumed, seen) =>
         var m := MessageOf(raw, consumed, seen);
         if m.None? then News(w, v) == [] else Replies(w, m.value, v)
       case Connects(guestPort) => if |w.conns| < PORT_SPACE then Announces(w, guestPort, v) else News(w, v) == []
       case SocketReady(port, _, _, hangup) =>
         if port in w.conns && w.conns[port].uds < |w.opens| then Serves(w, port, hangup, v) else News(w, v) == []
  }

  lemma ReceiveSays(w: World, m: Message, greeted: nat)
    requires Good(w, None) && m.hdr.dstPort in w.conns && greeted <= |OkLine(m.hdr.dstPort)|
    ensures var v := Received(w, m, greeted);
            && v.pushed == w.pushed && v.cid == w.cid && v.opens == w.opens && v.conns.Keys == w.conns.Keys
            && v.conns[m.hdr.dstPort].uds == w.conns[m.hdr.dstPort].uds
  {
  }

  lemma DataSays(w: World, m: Message, answers: seq<WriteAnswer>)
    requires Good(w, None) && m.hdr.dstPort in w.conns && !Resets(m) && m.hdr.op == OP_RW
    ensures Known(w, m.hdr.dstPort) && Flushes(w, FlushToUds(Received(w, m, 0), m.hdr.dstPort, answers), m.hdr.dstPort)
  {
    GoodIsKnown(w, m.hdr.dstPort, None);
    ReceiveSays(w, m, 0);
    ReceiveKeepsGood(w, m, 0);
    FlushToUdsSays(Received(w, m, 0), m.hdr.dstPort, answers);
  }

  lemma QuietSays(w: World, m: Message, a: Answer)
    requires Good(w, None) && HandleOk(w, m, a) && m.hdr.dstPort in w.conns && !Resets(m)
    requires m.hdr.op != OP_REQUEST && m.hdr.op != OP_RW
    ensures var v := Handled(w, m, a);
            v.cid == w.cid && w.pushed <= v.pushed && v.opens == w.opens && Replies(w, m, v)
  {
    GoodIsKnown(w, m.hdr.dstPort, None);
    ReceiveSays(w, m, 0);
    ReceiveSays(w, m, a.greeted);
  }

  lemma HandleSays(w: World, m: Message, a: Answer)
    requires Good(w, None) && HandleOk(w, m, a)
    ensures var v := Handled(w, m, a);
            v.cid == w.cid && w.pushed <= v.pushed && v.opens == w.opens && Replies(w, m, v)
  {
    if m.hdr.dstPort in w.conns && m.hdr.op != OP_REQUEST && !Resets(m) {
      if m.hdr.op == OP_RW { DataSays(w, m, a.writes); } else { QuietSays(w, m, a); }
    }
  }

  lemma PortBehind(start: u32, k: nat)
    requires FIRST_HOST_PORT <= start
    ensures PortAt(start, k + 1) == if PortAt(start, k) == 0xFFFF_FFFF then 0x4000_0000 else PortAt(start, k) + 1
  {
    var x := start - FIRST_HOST_PORT + k;
    var q, r := x / PORT_SPACE, x % PORT_SPACE;
    assert x + 1 == q * PORT_SPACE + (r + 1);
    if r + 1 == PORT_SPACE { assert x + 1 == (q + 1) * PORT_SPACE; }
  }

  lemma OpenSays(w: World, guestPort: u32, k: nat)
    requires Good(w, None) && FirstFree(w, k)
    ensures var v := Opened(w, guestPort, k);
            v.cid == w.cid && w.pushed <= v.pushed && w.opens <= v.opens && Announces(w, guestPort, v)
  {
    PortBehind(w.nextPort, k);
  }

  lemma TalksOn(w: World, u: World, v: World, port: u32)
    requires Known(w, port) && Talks(w, u, port)
    requires if port in u.conns then Known(u, port) && Talks(u, v, port) else v == u
    ensures Talks(w, v, port)
  {
  }

  lemma HangUpSays(w: World, u: World, port: u32)
    requires Known(w, port) && Talks(w, u, port) && (port in u.conns ==> Known(u, port))
    ensures var v := HangUp(u, port); v.cid == w.cid && w.pushed <= v.pushed && Serves(w, port, true, v)
  {
  }

  lemma FlushesTalk(w: World, v: World, port: u32)
    requires Known(w, port) && Flushes(w, v, port)
    ensures Talks(w, v, port)
  {
  }

  lemma PumpsTalk(w: World, v: World, port: u32)
    requires Known(w, port) && Pumps(w, v, port)
    ensures Talks(w, v, port)
  {
  }

  lemma FlushTalks(w: World, port: u32, answers: seq<WriteAnswer>)
    requires Good(w, None) && port in w.conns && FlushAllowed(w, port, answers)
    ensures Known(w, port) && Talks(w, FlushToUds(w, port, answers), port) && Good(FlushToUds(w, port, answers), None)
  {
    FlushToUdsSays(w, port, answers);
    FlushToUdsKeepsGood(w, port, answers);
    FlushesTalk(w, FlushToUds(w, port, answers), port);
  }

  lemma PumpTalks(w: World, port: u32, answers: seq<ReadResult>)
    requires Good(w, None) && port in w.conns
    ensures Known(w, port) && Talks(w, PumpAll(w, port, answers), port) && Good(PumpAll(w, port, answers), None)
  {
    GoodIsKnown(w, port, None);
    PumpAllSays(w, port, answers);
    PumpsTalk(w, PumpAll(w, port, answers), port);
    PumpAllKeepsGood(w, port, answers);
  }

  lemma ServeSays(w: World, port: u32, pollOut: bool, pollIn: bool, hangup: bool, a: Answer)
    requires Good(w, None) && ServeOk(w, port, pollOut, pollIn, a) && port in w.conns
    ensures var v := Served(w, port, pollOut, pollIn, hangup, a);
            Known(w, port) && v.cid == w.cid && w.pushed <= v.pushed && v.opens == w.opens && Serves(w, port, hangup, v)
  {
    var flushed := if pollOut then FlushToUds(w, port, a.writes) else w;
    var pumped := if pollIn then PumpAll(flushed, port, a.gives) else flushed;
    GoodIsKnown(w, port, None);
    if pollOut { FlushTalks(w, port, a.writes); }
    if pollIn && port in flushed.conns { PumpTalks(flushed, port, a.gives); }
    if port in flushed.conns { GoodIsKnown(flushed, port, None); }
    TalksOn(w, flushed, pumped, port);
    if port in pumped.conns { GoodIsKnown(pumped, port, None); }
    if hangup { HangUpSays(w, pumped, port); }
  }

  lemma StepSays(w: World, input: Input, a: Answer)
    requires Good(w, None) && StepOk(w, input, a)
    ensures Says(w, input, Stepped(w, input, a))
  {
    match input {
      case Arrives(raw, consumed, seen) =>
        var m := MessageOf(raw, consumed, seen);
        if m.Some? { HandleSays(w, m.value, a); }
      case Connects(guestPort) => if |w.conns| < PORT_SPACE { OpenSays(w, guestPort, a.probes); }
      case SocketReady(port, pollOut, pollIn, hangup) =>
        if port in w.conns { ServeSays(w, port, pollOut, pollIn, hangup, a); }
    }
  }

  // --- whole runs --------------------------------------------------------------------------------------------

  // Every step of a run of a fresh device sends exactly this.
  lemma RunSays(worlds: seq<World>, inputs: seq<Input>, answers: seq<Answer>, i: nat)
    requires Runs(worlds, inputs, answers) && worlds[0] == Start(worlds[0].cid) && i < |inputs|
    ensures Says(worlds[i], inputs[i], worlds[i + 1])
  {
    EveryRunIsGood(worlds, inputs, answers, i);
    assert StepsTo(worlds[i], inputs[i], answers[i], worlds[i + 1]);
    StepSays(worlds[i], inputs[i], answers[i]);
  }

  // The packets of a live connection that are not resets: those pushed from its port since it was opened.
  ghost predicate SpeaksFor(w: World, fd: nat, cid: u64)
    requires fd < |w.opens|
  {
    forall j :: w.opens[fd].pushedAt <= j < |w.pushed| &&
                w.pushed[j].hdr.srcPort == w.opens[fd].port && w.pushed[j].hdr.op != 3 ==>
                OfConnection(w.pushed[j], cid, w.opens[fd])
  }

  // Every packet pushed is a connection's, or the reset of one, or answers a message with a reset.
  ghost predicate Rightful(pkt: Packet, cid: u64, opens: seq<Opening>, heard: seq<Message>)
  {
    || (exists fd :: 0 <= fd < |opens| && OfConnection(pkt, cid, opens[fd]))
    || (exists fd :: 0 <= fd < |opens| && ResetOf(pkt, cid, opens[fd]))
    || (exists k :: 0 <= k < |heard| && (heard[k].hdr.op == 1 || heard[k].hdr.op == 4) && ResetFor(pkt, heard[k]))
  }

  ghost predicate AllRightful(w: World)
  {
    forall j :: 0 <= j < |w.pushed| ==> Rightful(w.pushed[j], w.cid, w.opens, w.inbox)
  }

  lemma StaysRightful(pkt: Packet, cid: u64, opens: seq<Opening>, heard: seq<Message>,
                      more: seq<Opening>, all: seq<Message>)
    requires Rightful(pkt, cid, opens, heard) && opens <= more && heard <= all
    ensures Rightful(pkt, cid, more, all)
  {
    if fd :| 0 <= fd < |opens| && OfConnection(pkt, cid, opens[fd]) {
      assert more[fd] == opens[fd];
    } else if fd :| 0 <= fd < |opens| && ResetOf(pkt, cid, opens[fd]) {
      assert more[fd] == opens[fd];
    } else {
      var k :| 0 <= k < |heard| && (heard[k].hdr.op == 1 || heard[k].hdr.op == 4) && ResetFor(pkt, heard[k]);
      assert all[k] == heard[k];
    }
  }

  lemma NewIsRightful(w: World, input: Input, v: World, j: nat)
    requires Says(w, input, v) && v.inbox == w.inbox + Messages(input) && |w.pushed| <= j < |v.pushed|
    ensures Rightful(v.pushed[j], v.cid, v.opens, v.inbox)
  {
    assert News(w, v)[j - |w.pushed|] == v.pushed[j];
    match input {
      case Arrives(raw, consumed, seen) =>
        var m := MessageOf(raw, consumed, seen);
        if m.Some? { assert v.inbox[|w.inbox|] == m.value; }
      case Connects(_) =>
      case SocketReady(_, _, _, _) =>
    }
  }

  lemma StepStaysRightful(w: World, input: Input, v: World)
    requires AllRightful(w) && Says(w, input, v) && v.inbox == w.inbox + Messages(input)
    ensures AllRightful(v)
  {
    forall j | 0 <= j < |v.pushed| ensures Rightful(v.pushed[j], v.cid, v.opens, v.inbox) {
      if j < |w.pushed| {
        assert v.pushed[j] == w.pushed[j];
        StaysRightful(w.pushed[j], w.cid, w.opens, w.inbox, v.opens, v.inbox);
      } else {
        NewIsRightful(w, input, v, j);
      }
    }
  }

  // Over every run of a fresh device every packet is one of these, with every field as the wire has it.
  lemma {:induction false} EveryPacketIsRightful(worlds: seq<World>, inputs: seq<Input>, answers: seq<Answer>, n: nat)
    requires Runs(worlds, inputs, answers) && worlds[0] == Start(worlds[0].cid) && n <= |inputs|
    ensures worlds[n].cid == worlds[0].cid && AllRightful(worlds[n])
  {
    if n > 0 {
      EveryPacketIsRightful(worlds, inputs, answers, n - 1);
      RunSays(worlds, inputs, answers, n - 1);
      StepAt(worlds, inputs, answers, n - 1);
      StepStaysRightful(worlds[n - 1], inputs[n - 1], worlds[n]);
    }
  }

  // A packet a step sends, if it is no reset, is that of a connection there was or of the one it opened.
  lemma NewIsSomeones(w: World, input: Input, v: World, j: nat) returns (port: u32)
    requires Says(w, input, v) && |w.pushed| <= j < |v.pushed| && v.pushed[j].hdr.op != 3
    ensures if port in w.conns
            then w.conns[port].uds < |w.opens| && OfConnection(v.pushed[j], w.cid, w.opens[w.conns[port].uds])
            else v.pushed[j].hdr.srcPort == port
  {
    port := v.pushed[j].hdr.srcPort;
    assert News(w, v)[j - |w.pushed|] == v.pushed[j];
    match input {
      case Arrives(raw, consumed, seen) => port := MessageOf(raw, consumed, seen).value.hdr.dstPort;
      case Connects(_) =>
      case SocketReady(p, _, _, _) => port := p;
    }
  }

  lemma NewIsItsOwn(w: World, input: Input, v: World, fd: nat, j: nat)
    requires Good(w, None) && Says(w, input, v) && fd < |w.opens| && Live(w, fd) && |w.pushed| <= j < |v.pushed|
    requires v.pushed[j].hdr.srcPort == w.opens[fd].port && v.pushed[j].hdr.op != 3
    ensures OfConnection(v.pushed[j], w.cid, w.opens[fd])
  {
    var port := NewIsSomeones(w, input, v, j);
    if port in w.conns { assert Slotted(w, port); }
  }

  lemma OldStaysFaithful(w: World, input: Input, v: World, fd: nat)
    requires Good(w, None) && Says(w, input, v) && fd < |w.opens| && Live(w, fd) && SpeaksFor(w, fd, w.cid)
    ensures SpeaksFor(v, fd, w.cid)
  {
    assert v.opens[fd] == w.opens[fd];
    forall j | w.opens[fd].pushedAt <= j < |v.pushed| && v.pushed[j].hdr.srcPort == w.opens[fd].port &&
               v.pushed[j].hdr.op != 3
      ensures OfConnection(v.pushed[j], w.cid, w.opens[fd])
    {
      if j < |w.pushed| { assert v.pushed[j] == w.pushed[j]; } else { NewIsItsOwn(w, input, v, fd, j); }
    }
  }

  lemma NewIsFaithful(w: World, input: Input, v: World)
    requires Says(w, input, v) && |w.opens| < |v.opens| && input.Connects? && |w.conns| < PORT_SPACE
    ensures |v.opens| == |w.opens| + 1 && SpeaksFor(v, |w.opens|, w.cid)
  {
    assert News(w, v)[0] == v.pushed[|w.pushed|];
  }

  lemma StepStaysFaithful(w: World, input: Input, v: World, fd: nat)
    requires Good(w, None) && Says(w, input, v) && Forward(w, v) && fd < |v.opens| && Live(v, fd)
    requires fd < |w.opens| && Live(w, fd) ==> SpeaksFor(w, fd, w.cid)
    ensures SpeaksFor(v, fd, w.cid)
  {
    if fd < |w.opens| {
      assert Live(w, fd);
      OldStaysFaithful(w, input, v, fd);
    } else {
      NewIsFaithful(w, input, v);
    }
  }

  // The invariant of the reactor, and what one connection was sent.
  ghost predicate WellAddressed(w: World, fd: nat)
  {
    Good(w, None) && (fd < |w.opens| && Live(w, fd) ==> SpeaksFor(w, fd, w.cid))
  }

  lemma StepStaysAddressed(w: World, input: Input, a: Answer, v: World, fd: nat)
    requires WellAddressed(w, fd) && StepsTo(w, input, a, v)
    ensures WellAddressed(v, fd)
  {
    StepKeepsGood(w, input, a);
    StepForward(w, input, a);
    StepSays(w, input, a);
    if fd < |v.opens| && Live(v, fd) { StepStaysFaithful(w, input, v, fd); }
  }

  lemma {:induction false} RunStaysAddressed(worlds: seq<World>, inputs: seq<Input>, answers: seq<Answer>,
                                             n: nat, fd: nat)
    requires Runs(worlds, inputs, answers) && WellAddressed(worlds[0], fd) && n <= |inputs|
    ensures WellAddressed(worlds[n], fd)
  {
    if n > 0 {
      RunStaysAddressed(worlds, inputs, answers, n - 1, fd);
      assert StepsTo(worlds[n - 1], inputs[n - 1], answers[n - 1], worlds[n]);
      StepStaysAddressed(worlds[n - 1], inputs[n - 1], answers[n - 1], worlds[n], fd);
    }
  }

  // And for every live connection: what was pushed from its port since its handshake, resets aside, went to
  // the guest port that handshake asked for.
  lemma EveryConnectionSpeaks(worlds: seq<World>, inputs: seq<Input>, answers: seq<Answer>, n: nat, fd: nat)
    requires Runs(worlds, inputs, answers) && worlds[0] == Start(worlds[0].cid) && n <= |inputs|
    requires fd < |worlds[n].opens| && Live(worlds[n], fd)
    ensures SpeaksFor(worlds[n], fd, worlds[0].cid)
  {
    EveryPacketIsRightful(worlds, inputs, answers, n);
    RunStaysAddressed(worlds, inputs, answers, n, fd);
  }

  // --- readiness ------------------------------------------------------------------------------------------------

  // The guest's ping: a request to port 1024.
  predicate IsPing(m: Message) { m.hdr.op == 1 && m.hdr.dstPort == 1024 }

  ghost predicate Pinged(messages: seq<Message>)
  {
    exists k :: 0 <= k < |messages| && IsPing(messages[k])
  }

  lemma {:induction false} PumpKeepsReady(w: World, port: u32, answers: seq<ReadResult>)
    ensures PumpAll(w, port, answers).ready == w.ready
    decreases |answers|
  {
    if answers != [] && PumpOk(w, port, answers[0]) { PumpKeepsReady(Pumped(w, port, answers[0]), port, answers[1..]); }
  }

  lemma ServeKeepsReady(w: World, port: u32, pollOut: bool, pollIn: bool, hangup: bool, a: Answer)
    ensures Served(w, port, pollOut, pollIn, hangup, a).ready == w.ready
  {
    FlushKeepsReady(w, port, a.writes);
    PumpKeepsReady(if pollOut then FlushToUds(w, port, a.writes) else w, port, a.gives);
  }

  lemma StepReadies(w: World, input: Input, a: Answer)
    requires StepOk(w, input, a)
    ensures Stepped(w, input, a).ready <==> w.ready || Pinged(Messages(input))
  {
    match input {
      case Arrives(raw, consumed, seen) =>
        var m := MessageOf(raw, consumed, seen);
        if m.Some? {
          HandleHears(w, m.value, a);
          assert Messages(input)[0] == m.value;
        }
      case Connects(_) =>
      case SocketReady(port, pollOut, pollIn, hangup) => ServeKeepsReady(w, port, pollOut, pollIn, hangup, a);
    }
  }

  lemma PingedOrPinged(a: seq<Message>, b: seq<Message>)
    ensures Pinged(a + b) <==> Pinged(a) || Pinged(b)
  {
    if Pinged(a) {
      var k :| 0 <= k < |a| && IsPing(a[k]);
      assert (a + b)[k] == a[k];
    } else if Pinged(b) {
      var k :| 0 <= k < |b| && IsPing(b[k]);
      assert (a + b)[|a| + k] == b[k];
    }
  }

  // A fresh device reports its guest ready if and only if the guest has pinged.
  lemma {:induction false} ReadyExactlyWhenPinged(worlds: seq<World>, inputs: seq<Input>, answers: seq<Answer>, n: nat)
    requires Runs(worlds, inputs, answers) && worlds[0] == Start(worlds[0].cid) && n <= |inputs|
    ensures worlds[n].ready <==> Pinged(AllMessages(inputs[..n]))
  {
    if n > 0 {
      ReadyExactlyWhenPinged(worlds, inputs, answers, n - 1);
      assert StepsTo(worlds[n - 1], inputs[n - 1], answers[n - 1], worlds[n]);
      StepReadies(worlds[n - 1], inputs[n - 1], answers[n - 1]);
      Snoc(inputs, n);
      PingedOrPinged(AllMessages(inputs[..n - 1]), Messages(inputs[n - 1]));
    }
  }
}
