// What the vsock reactor does, as functions on values: its connections, and beside them everything
// that has happened at its borders. Packets from the guest arrive in `inbox`, packets for the guest
// leave in `pushed`, and every host socket logs the bytes it gave and took.
module VsockWorld {
  import opened Prelude
  import opened VsockProto
  import Cmdline
  import Utf8

  const BOOT_PORT: u32 := 1024
  const HOST_BUF_ALLOC: u32 := 0x4_0000
  const FIRST_HOST_PORT: u32 := 0x4000_0000
  const PORT_SPACE: nat := 0xC000_0000
  const MAX_RW_PAYLOAD: nat := 4096

  datatype ConnState = Connecting | Established

  // `uds` numbers the host socket the connection bridges to.
  datatype Conn = Conn(localPort: u32, guestPort: u32, uds: nat, state: ConnState, credit: CreditTracker,
                       rxFwdCnt: u32, lastCreditSent: u32, toUds: seq<byte>)
  {
    function HeaderFor(guestCid: u64, op: u16, len: u32): Header
    {
      Header(HOST_CID, guestCid, localPort, guestPort, len, TYPE_STREAM, op, 0, HOST_BUF_ALLOC, rxFwdCnt)
    }
  }

  datatype Packet = Packet(hdr: Header, data: seq<byte>)

  // A guest packet with its clipped payload. For the theorems it also carries what the guest has
  // truly consumed and the host's count it has learned of.
  datatype Message = Message(hdr: Header, payload: seq<byte>, consumed: nat, seen: nat)

  datatype SocketLog = SocketLog(read: seq<byte>, wrote: seq<byte>, ended: bool)

  // One socket's connection: its ports, and where the logs stood when it was opened.
  datatype Opening = Opening(port: u32, guestPort: u32, pushedAt: nat, inboxAt: nat, hupsAt: nat)

  // The greeting line, as far as the socket took it, after so many bytes of guest output.
  datatype Greeting = Greeting(at: nat, bytes: seq<byte>)

  // Credit events of one connection in the order they happened, and guest output written.
  datatype Flow = Flow(log: seq<CreditEvent>, written: seq<byte>, greeting: Option<Greeting>)

  datatype World = World(
    cid: u64, ready: bool, nextPort: u32, conns: map<u32, Conn>,
    opens: seq<Opening>, logs: seq<SocketLog>, flows: seq<Flow>,
    pushed: seq<Packet>, inbox: seq<Message>, hups: seq<u32>)

  // --- what the borders say about one connection ------------------------------------------

  // Packets pushed for a port: stream bytes, the size of each data packet, the last count advertised, and
  // the number of bytes consumed that all these counts tell.
  datatype Outgoing = Outgoing(bytes: seq<byte>, sizes: seq<nat>, advertised: u32, learned: nat)

  // The least number from `known` on whose low word is `low`.
  function Unwrapped(known: nat, low: u32): nat
  {
    known + (low - known) % TWO32
  }

  function Sends(out: Outgoing, pkt: Packet, port: u32): Outgoing
  {
    if pkt.hdr.srcPort != port || pkt.hdr.op == OP_RST then out
    else if pkt.hdr.op == OP_RW then
      Outgoing(out.bytes + pkt.data, out.sizes + [|pkt.data|], pkt.hdr.fwdCnt, Unwrapped(out.learned, pkt.hdr.fwdCnt))
    else out.(advertised := pkt.hdr.fwdCnt, learned := Unwrapped(out.learned, pkt.hdr.fwdCnt))
  }

  function OutgoingOf(pushed: seq<Packet>, from: nat, port: u32): Outgoing
  {
    if |pushed| <= from then Outgoing([], [], 0, 0)
    else Sends(OutgoingOf(pushed[..|pushed| - 1], from, port), pushed[|pushed| - 1], port)
  }

  // Messages for a port: payload bytes, credit reports, whether it was accepted, whether it was reset.
  datatype Incoming = Incoming(payload: seq<byte>, reports: seq<CreditEvent>, responded: bool, reset: bool)

  // The report a header makes. A count that is not the low word of the true one is taken as it is.
  function ReportOf(m: Message): CreditEvent
  {
    Report(m.hdr.bufAlloc, if m.consumed % TWO32 == m.hdr.fwdCnt then m.consumed else m.hdr.fwdCnt)
  }

  function Hears(heard: Incoming, m: Message, port: u32): Incoming
  {
    if m.hdr.dstPort != port then heard
    else if m.hdr.op == OP_RW then
      heard.(payload := heard.payload + m.payload, reports := heard.reports + [ReportOf(m)])
    else if m.hdr.op == OP_CREDIT_UPDATE then heard.(reports := heard.reports + [ReportOf(m)])
    else if m.hdr.op == OP_RESPONSE && !heard.responded then
      heard.(reports := heard.reports + [ReportOf(m)], responded := true)
    else if m.hdr.op == OP_SHUTDOWN || m.hdr.op == OP_RST then heard.(reset := true)
    else heard
  }

  function IncomingOf(inbox: seq<Message>, from: nat, port: u32): Incoming
  {
    if |inbox| <= from then Incoming([], [], false, false)
    else Hears(IncomingOf(inbox[..|inbox| - 1], from, port), inbox[|inbox| - 1], port)
  }

  predicate HungUp(hups: seq<u32>, from: nat, port: u32)
  {
    |hups| > from && (hups[|hups| - 1] == port || HungUp(hups[..|hups| - 1], from, port))
  }

  function SentSizes(log: seq<CreditEvent>): seq<nat>
  {
    if log == [] then []
    else SentSizes(log[..|log| - 1]) + (if log[|log| - 1].Sent? then [log[|log| - 1].n] else [])
  }

  function Reports(log: seq<CreditEvent>): seq<CreditEvent>
  {
    if log == [] then []
    else Reports(log[..|log| - 1]) + (if log[|log| - 1].Report? then [log[|log| - 1]] else [])
  }

  // The bytes on the socket: guest output with the greeting where it was written.
  function Spliced(f: Flow): seq<byte>
  {
    match f.greeting
    case None => f.written
    case Some(g) => if g.at <= |f.written| then f.written[..g.at] + g.bytes + f.written[g.at..] else f.written
  }

  function OkLine(port: u32): seq<byte>
  {
    Utf8.Encode("OK " + Cmdline.Digits(port) + "\n")
  }

  // --- the invariant ---------------------------------------------------------------------------

  // Host to guest: the bytes read from the socket are the payloads pushed, packet by packet the sends
  // of the credit account, the tracker is that account, and no more is told consumed than was written.
  ghost predicate Outbound(c: Conn, f: Flow, s: SocketLog, out: Outgoing)
  {
    && out.bytes == s.read && out.sizes == SentSizes(f.log) && out.learned <= |f.written|
    && c.credit == After(f.log).tracker && After(f.log).sent == |s.read| && Obedient(f.log)
  }

  // Guest to host: the payloads received are the bytes written then those buffered, the count is
  // their number, and the account's reports are the ones received.
  ghost predicate Inbound(c: Conn, f: Flow, s: SocketLog, heard: Incoming)
  {
    && heard.payload == f.written + c.toUds && c.rxFwdCnt == |f.written| % TWO32
    && s.wrote == Spliced(f) && Reports(f.log) == heard.reports
    && (c.state.Established? <==> heard.responded)
    && (f.greeting.Some? ==> f.greeting.value.at <= |f.written| && f.greeting.value.bytes <= OkLine(c.localPort))
    && (c.state.Established? <==> f.greeting.Some?)
  }

  // The guest has been told of everything consumed.
  predicate Settled(c: Conn, out: Outgoing)
  {
    c.lastCreditSent == c.rxFwdCnt == out.advertised
  }

  function OutOf(w: World, fd: nat): Outgoing
    requires fd < |w.opens|
  {
    OutgoingOf(w.pushed, w.opens[fd].pushedAt, w.opens[fd].port)
  }

  function HeardOf(w: World, fd: nat): Incoming
    requires fd < |w.opens|
  {
    IncomingOf(w.inbox, w.opens[fd].inboxAt, w.opens[fd].port)
  }

  ghost predicate Shaped(w: World)
  {
    && |w.opens| == |w.logs| == |w.flows| && FIRST_HOST_PORT <= w.nextPort
    && (forall p :: p in w.conns ==> Slotted(w, p))
    && (forall fd :: 0 <= fd < |w.opens| ==> Placed(w, w.opens[fd]))
  }

  ghost predicate Slotted(w: World, p: u32)
    requires p in w.conns
  {
    var c := w.conns[p];
    c.localPort == p && c.uds < |w.opens| && w.opens[c.uds].port == p && w.opens[c.uds].guestPort == c.guestPort
  }

  predicate Placed(w: World, o: Opening)
  {
    o.pushedAt <= |w.pushed| && o.inboxAt <= |w.inbox| && o.hupsAt <= |w.hups|
  }

  ghost predicate Joined(w: World, p: u32)
    requires Shaped(w) && p in w.conns
  {
    var fd := w.conns[p].uds;
    && Outbound(w.conns[p], w.flows[fd], w.logs[fd], OutOf(w, fd))
    && Inbound(w.conns[p], w.flows[fd], w.logs[fd], HeardOf(w, fd))
  }

  ghost predicate Live(w: World, fd: nat)
    requires fd < |w.opens|
  {
    w.opens[fd].port in w.conns && w.conns[w.opens[fd].port].uds == fd
  }

  // Why a connection ends: the guest reset or shut it, its socket hung up, ended or failed.
  predicate Ended(w: World, fd: nat)
    requires fd < |w.opens| == |w.logs|
  {
    HeardOf(w, fd).reset || HungUp(w.hups, w.opens[fd].hupsAt, w.opens[fd].port) || w.logs[fd].ended
  }

  // Every connection is in order, and exactly those are live that nothing has ended. Only `owing` may
  // still owe the guest a credit update.
  ghost predicate Good(w: World, owing: Option<u32>)
  {
    && Shaped(w)
    && (forall p :: p in w.conns ==> Joined(w, p))
    && (forall p :: p in w.conns && Some(p) != owing ==> Settled(w.conns[p], OutOf(w, w.conns[p].uds)))
    && (forall fd :: 0 <= fd < |w.opens| ==> (Live(w, fd) <==> !Ended(w, fd)))
  }

  // --- the steps ---------------------------------------------------------------------------------

  function Push(w: World, pkt: Packet): World
  {
    w.(pushed := w.pushed + [pkt])
  }

  function Drop(w: World, port: u32): World
  {
    w.(conns := w.conns - {port})
  }

  function Told(c: Conn, op: u16): Conn
  {
    if op == OP_CREDIT_UPDATE then c.(lastCreditSent := c.rxFwdCnt) else c
  }

  // A header-only packet for a connection.
  function Tell(w: World, port: u32, op: u16): World
  {
    if port !in w.conns then w
    else
      var c := Told(w.conns[port], op);
      Push(w.(conns := w.conns[port := c]), Packet(c.HeaderFor(w.cid, op, 0), []))
  }

  function RstPacket(dstCid: u64, srcPort: u32, dstPort: u32): Packet
  {
    Packet(Header(HOST_CID, dstCid, srcPort, dstPort, 0, TYPE_STREAM, OP_RST, 0, 0, 0), [])
  }

  // --- frames --------------------------------------------------------------------------------------

  lemma OutAppend(pushed: seq<Packet>, pkt: Packet, from: nat, port: u32)
    requires from <= |pushed|
    ensures OutgoingOf(pushed + [pkt], from, port) == Sends(OutgoingOf(pushed, from, port), pkt, port)
  {
    assert (pushed + [pkt])[..|pushed|] == pushed;
  }

  lemma InAppend(inbox: seq<Message>, m: Message, from: nat, port: u32)
    requires from <= |inbox|
    ensures IncomingOf(inbox + [m], from, port) == Hears(IncomingOf(inbox, from, port), m, port)
  {
    assert (inbox + [m])[..|inbox|] == inbox;
  }

  // A count of what is written tells no more than that.
  lemma UnwrapsWithin(known: nat, total: nat)
    requires known <= total
    ensures Unwrapped(known, total % TWO32) <= total
  {
    var gap := total - known;
    assert (total % TWO32 - known) % TWO32 == gap % TWO32;
  }

  lemma HupAppend(hups: seq<u32>, p: u32, from: nat, port: u32)
    requires from <= |hups|
    ensures HungUp(hups + [p], from, port) <==> p == port || HungUp(hups, from, port)
  {
    assert (hups + [p])[..|hups|] == hups;
  }

  lemma LogAppend(log: seq<CreditEvent>, e: CreditEvent)
    ensures SentSizes(log + [e]) == SentSizes(log) + (if e.Sent? then [e.n] else [])
    ensures Reports(log + [e]) == Reports(log) + (if e.Report? then [e] else [])
    ensures After(log + [e]) == Accounted(After(log), e)
    ensures Obedient(log + [e]) <==> Obedient(log) && (e.Sent? ==> 0 < e.n <= After(log).tracker.Available())
  {
    assert (log + [e])[..|log|] == log;
  }

  // Two connections of one world use different sockets.
  lemma SocketsDiffer(w: World, p: u32, q: u32)
    requires Shaped(w) && p in w.conns && q in w.conns && p != q
    ensures w.conns[p].uds != w.conns[q].uds
  {
    assert Slotted(w, p) && Slotted(w, q);
  }

  // The connection on socket `fd` sees the same borders in both worlds.
  ghost predicate SameBorders(w: World, v: World, fd: nat)
  {
    && fd < |w.opens| && fd < |v.opens| && fd < |w.flows| && fd < |v.flows| && fd < |w.logs| && fd < |v.logs|
    && v.opens[fd] == w.opens[fd] && v.flows[fd] == w.flows[fd] && v.logs[fd] == w.logs[fd]
    && OutOf(v, fd) == OutOf(w, fd) && HeardOf(v, fd) == HeardOf(w, fd)
  }

  lemma FrameJoined(w: World, v: World, q: u32)
    requires Shaped(w) && Shaped(v) && q in w.conns && q in v.conns && v.conns[q] == w.conns[q]
    requires SameBorders(w, v, w.conns[q].uds) && Joined(w, q)
    ensures Joined(v, q)
    ensures Settled(w.conns[q], OutOf(w, w.conns[q].uds)) ==> Settled(v.conns[q], OutOf(v, v.conns[q].uds))
  {
  }

  // A world grows: its logs get longer and its sockets stay.
  ghost predicate Grows(w: World, v: World)
  {
    && v.opens == w.opens && |v.logs| == |w.logs| && |v.flows| == |w.flows| && v.nextPort == w.nextPort
    && |w.pushed| <= |v.pushed| && |w.inbox| <= |v.inbox| && |w.hups| <= |v.hups|
  }

  lemma GrowsKeepsShape(w: World, v: World)
    requires Shaped(w) && Grows(w, v) && forall p :: p in v.conns ==> Slotted(v, p)
    ensures Shaped(v)
  {
    forall fd | 0 <= fd < |v.opens| ensures Placed(v, v.opens[fd]) { assert Placed(w, w.opens[fd]); }
  }

  // Some packet or none joined `pushed`, and it tells other ports nothing.
  predicate PushesFor(w: World, v: World, port: u32)
  {
    v.pushed == w.pushed ||
    (|v.pushed| > 0 && v.pushed == w.pushed + [v.pushed[|v.pushed| - 1]]
     && (v.pushed[|v.pushed| - 1].hdr.srcPort == port || v.pushed[|v.pushed| - 1].hdr.op == OP_RST))
  }

  // Some message or none joined `inbox`, it is for `port` and resets nothing.
  predicate ArrivesFor(w: World, v: World, port: u32)
  {
    v.inbox == w.inbox ||
    (|v.inbox| > 0 && v.inbox == w.inbox + [v.inbox[|v.inbox| - 1]]
     && v.inbox[|v.inbox| - 1].hdr.dstPort == port
     && v.inbox[|v.inbox| - 1].hdr.op != OP_RST && v.inbox[|v.inbox| - 1].hdr.op != OP_SHUTDOWN)
  }

  lemma OtherOut(w: World, v: World, port: u32, fd: nat)
    requires Shaped(w) && fd < |w.opens| && v.opens == w.opens && w.opens[fd].port != port && PushesFor(w, v, port)
    ensures OutOf(v, fd) == OutOf(w, fd)
  {
    assert Placed(w, w.opens[fd]);
    if v.pushed != w.pushed {
      OutAppend(w.pushed, v.pushed[|v.pushed| - 1], w.opens[fd].pushedAt, w.opens[fd].port);
    }
  }

  lemma OtherHeard(w: World, v: World, port: u32, fd: nat)
    requires Shaped(w) && fd < |w.opens| && v.opens == w.opens && ArrivesFor(w, v, port)
    ensures HeardOf(v, fd).reset == HeardOf(w, fd).reset
    ensures w.opens[fd].port != port ==> HeardOf(v, fd) == HeardOf(w, fd)
  {
    assert Placed(w, w.opens[fd]);
    if v.inbox != w.inbox {
      InAppend(w.inbox, v.inbox[|v.inbox| - 1], w.opens[fd].inboxAt, w.opens[fd].port);
    }
  }

  // The common shape of a step on one connection: it, its history and its socket's log are replaced,
  // at most one packet of its own is pushed and at most one message for it arrived.
  ghost predicate Replaces(w: World, v: World, c: Conn, f: Flow, s: SocketLog)
  {
    && Shaped(w) && c.localPort in w.conns && c.uds == w.conns[c.localPort].uds
    && c.guestPort == w.conns[c.localPort].guestPort && Grows(w, v) && v.hups == w.hups
    && v.conns == w.conns[c.localPort := c] && v.flows == w.flows[c.uds := f] && v.logs == w.logs[c.uds := s]
    && PushesFor(w, v, c.localPort) && ArrivesFor(w, v, c.localPort)
  }

  lemma ReplaceShape(w: World, v: World, c: Conn, f: Flow, s: SocketLog)
    requires Replaces(w, v, c, f, s)
    ensures Shaped(v)
  {
    forall p | p in v.conns ensures Slotted(v, p) { assert Slotted(w, p) && Slotted(w, c.localPort); }
    GrowsKeepsShape(w, v);
  }

  lemma ReplaceOthers(w: World, v: World, c: Conn, f: Flow, s: SocketLog, q: u32)
    requires Replaces(w, v, c, f, s) && Shaped(v) && q in w.conns && q != c.localPort && Joined(w, q)
    ensures Joined(v, q)
    ensures Settled(w.conns[q], OutOf(w, w.conns[q].uds)) ==> Settled(v.conns[q], OutOf(v, v.conns[q].uds))
  {
    assert Slotted(w, q) && Slotted(w, c.localPort);
    SocketsDiffer(w, c.localPort, q);
    OtherOut(w, v, c.localPort, w.conns[q].uds);
    OtherHeard(w, v, c.localPort, w.conns[q].uds);
    FrameJoined(w, v, q);
  }

  lemma ReplaceLives(w: World, v: World, c: Conn, f: Flow, s: SocketLog, fd: nat)
    requires Replaces(w, v, c, f, s) && fd < |w.opens| && s.ended == w.logs[c.uds].ended
    requires Live(w, fd) <==> !Ended(w, fd)
    ensures Live(v, fd) <==> !Ended(v, fd)
  {
    OtherHeard(w, v, c.localPort, fd);
  }

  // Such a step keeps the invariant when the connection itself is in order afterwards.
  lemma ReplaceKeepsGood(w: World, v: World, c: Conn, f: Flow, s: SocketLog)
    requires Good(w, Some(c.localPort)) && Replaces(w, v, c, f, s) && s.ended == w.logs[c.uds].ended
    requires Outbound(c, f, s, OutOf(v, c.uds)) && Inbound(c, f, s, HeardOf(v, c.uds))
    ensures Good(v, Some(c.localPort))
    ensures Settled(c, OutOf(v, c.uds)) ==> Good(v, None)
  {
    ReplaceShape(w, v, c, f, s);
    forall p | p in v.conns
      ensures Joined(v, p) && (p != c.localPort ==> Settled(v.conns[p], OutOf(v, v.conns[p].uds)))
    {
      if p != c.localPort { ReplaceOthers(w, v, c, f, s, p); }
    }
    forall fd | 0 <= fd < |w.opens| ensures Live(v, fd) <==> !Ended(v, fd) { ReplaceLives(w, v, c, f, s, fd); }
  }

  // The common shape of a step that ends a connection.
  ghost predicate Removes(w: World, v: World, port: u32)
  {
    && Shaped(w) && Grows(w, v) && v.conns == w.conns - {port} && v.flows == w.flows && PushesFor(w, v, port)
    && (v.inbox == w.inbox ||
        (|v.inbox| > 0 && v.inbox == w.inbox + [v.inbox[|v.inbox| - 1]] && v.inbox[|v.inbox| - 1].hdr.dstPort == port))
    && (v.hups == w.hups || v.hups == w.hups + [port])
    && (v.logs == w.logs ||
        (port in w.conns && v.logs == w.logs[w.conns[port].uds := w.logs[w.conns[port].uds].(ended := true)]))
  }

  lemma RemoveHeard(w: World, v: World, port: u32, fd: nat)
    requires Removes(w, v, port) && fd < |w.opens|
    ensures HeardOf(w, fd).reset ==> HeardOf(v, fd).reset
    ensures w.opens[fd].port != port ==> HeardOf(v, fd) == HeardOf(w, fd)
  {
    assert Placed(w, w.opens[fd]);
    if v.inbox != w.inbox {
      InAppend(w.inbox, v.inbox[|v.inbox| - 1], w.opens[fd].inboxAt, w.opens[fd].port);
    }
  }

  lemma RemoveHups(w: World, v: World, port: u32, fd: nat)
    requires Removes(w, v, port) && fd < |w.opens|
    ensures HungUp(w.hups, w.opens[fd].hupsAt, w.opens[fd].port) ==>
            HungUp(v.hups, w.opens[fd].hupsAt, w.opens[fd].port)
    ensures w.opens[fd].port != port ==>
              (HungUp(v.hups, w.opens[fd].hupsAt, w.opens[fd].port) <==>
               HungUp(w.hups, w.opens[fd].hupsAt, w.opens[fd].port))
  {
    assert Placed(w, w.opens[fd]);
    if v.hups != w.hups { HupAppend(w.hups, port, w.opens[fd].hupsAt, w.opens[fd].port); }
  }

  lemma RemoveLives(w: World, v: World, port: u32, fd: nat)
    requires Removes(w, v, port) && fd < |w.opens| && (Live(w, fd) <==> !Ended(w, fd))
    requires port in w.conns ==> w.conns[port].uds < |w.opens| && Ended(v, w.conns[port].uds)
    ensures Live(v, fd) <==> !Ended(v, fd)
  {
    RemoveHeard(w, v, port, fd);
    RemoveHups(w, v, port, fd);
    if port in w.conns { assert Slotted(w, port); }
  }

  lemma RemoveOthers(w: World, v: World, port: u32, q: u32)
    requires Removes(w, v, port) && Shaped(v) && q in w.conns && q != port && Joined(w, q)
    ensures Joined(v, q)
    ensures Settled(w.conns[q], OutOf(w, w.conns[q].uds)) ==> Settled(v.conns[q], OutOf(v, v.conns[q].uds))
  {
    assert Slotted(w, q);
    if port in w.conns { SocketsDiffer(w, port, q); }
    OtherOut(w, v, port, w.conns[q].uds);
    RemoveHeard(w, v, port, w.conns[q].uds);
    FrameJoined(w, v, q);
  }

  // Such a step keeps the invariant when something that ends the connection has been logged.
  lemma RemoveKeepsGood(w: World, v: World, port: u32)
    requires Good(w, Some(port)) && Removes(w, v, port)
    requires port in w.conns ==> w.conns[port].uds < |w.opens| && Ended(v, w.conns[port].uds)
    ensures Good(v, None)
  {
    forall p | p in v.conns ensures Slotted(v, p) { assert Slotted(w, p); }
    GrowsKeepsShape(w, v);
    forall p | p in v.conns ensures Joined(v, p) && Settled(v.conns[p], OutOf(v, v.conns[p].uds)) {
      RemoveOthers(w, v, port, p);
    }
    forall fd | 0 <= fd < |w.opens| ensures Live(v, fd) <==> !Ended(v, fd) { RemoveLives(w, v, port, fd); }
  }

  // A step that touches no connection: a reset for the guest, or a message nobody live cares about.
  ghost predicate Passes(w: World, v: World, port: u32)
  {
    && Shaped(w) && Grows(w, v) && v.conns == w.conns && v.flows == w.flows && v.logs == w.logs && v.hups == w.hups
    && (v.pushed == w.pushed ||
        (|v.pushed| > 0 && v.pushed == w.pushed + [v.pushed[|v.pushed| - 1]] &&
         v.pushed[|v.pushed| - 1].hdr.op == OP_RST))
    && ArrivesFor(w, v, port)
  }

  lemma PassBorders(w: World, v: World, port: u32, q: u32)
    requires Passes(w, v, port) && q in w.conns && Slotted(w, q)
    requires q == port ==> HeardOf(v, w.conns[q].uds) == HeardOf(w, w.conns[q].uds)
    ensures SameBorders(w, v, w.conns[q].uds)
  {
    var fd := w.conns[q].uds;
    OtherHeard(w, v, port, fd);
    assert Placed(w, w.opens[fd]);
    if v.pushed != w.pushed { OutAppend(w.pushed, v.pushed[|v.pushed| - 1], w.opens[fd].pushedAt, w.opens[fd].port); }
  }

  lemma PassKeepsGood(w: World, v: World, port: u32)
    requires Good(w, None) && Passes(w, v, port)
    requires port in w.conns ==>
             w.conns[port].uds < |w.opens| && HeardOf(v, w.conns[port].uds) == HeardOf(w, w.conns[port].uds)
    ensures Good(v, None)
  {
    forall p | p in v.conns ensures Slotted(v, p) { assert Slotted(w, p); }
    GrowsKeepsShape(w, v);
    forall p | p in v.conns ensures Joined(v, p) && Settled(v.conns[p], OutOf(v, v.conns[p].uds)) {
      assert Slotted(w, p);
      PassBorders(w, v, port, p);
      FrameJoined(w, v, p);
    }
    forall fd | 0 <= fd < |w.opens| ensures Live(v, fd) <==> !Ended(v, fd) {
      assert Live(w, fd) <==> !Ended(w, fd);
      OtherHeard(w, v, port, fd);
    }
  }
}
