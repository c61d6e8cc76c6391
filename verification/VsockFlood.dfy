// The credit window does not protect the guest's stream: a run of the device in which a packet that was
// within the window is dropped by the full backlog.
module VsockFlood {
  import opened Prelude
  import opened VsockProto
  import opened VsockWorld
  import opened VsockSteps
  import opened VsockRuns
  import opened VsockGuarantees
  import opened Chains
  import Rx = RxBacklog

  // One-byte packets of a connection.
  predicate SingleBytes(packets: seq<Packet>, port: u32)
  {
    forall i :: 0 <= i < |packets| ==>
      packets[i].hdr.srcPort == port && packets[i].hdr.op == OP_RW && |packets[i].data| == 1
  }

  // --- a dripping socket -----------------------------------------------------------------------------

  // A socket that gives `n` bytes one at a time, then answers as in `tail`.
  function Drip(n: nat, b: byte, tail: seq<ReadResult>): seq<ReadResult>
  {
    if n == 0 then tail else [Data([b])] + Drip(n - 1, b, tail)
  }

  // A window of `n` bytes and `spare` more.
  ghost predicate Flowing(w: World, port: u32, n: nat, spare: nat)
  {
    && Good(w, None) && port in w.conns && w.conns[port].state.Established?
    && w.conns[port].credit.Available() == n + spare
  }

  lemma DripOne(w: World, port: u32, b: byte) returns (pkt: Packet)
    requires Good(w, None) && CanPump(w, port)
    ensures PumpOk(w, port, Data([b])) && Good(Pumped(w, port, Data([b])), None)
    ensures var v := Pumped(w, port, Data([b]));
            && v.pushed == w.pushed + [pkt] && SingleBytes([pkt], port)
            && port in v.conns && v.conns[port].state.Established?
            && v.conns[port].credit.Available() == w.conns[port].credit.Available() - 1
  {
    PumpKeepsGood(w, port, Data([b]));
    assert Slotted(w, port);
    SendShrinks(w.conns[port].credit, 1);
    pkt := Packet(w.conns[port].HeaderFor(w.cid, OP_RW, 1), [b]);
  }

  lemma DripStep(w: World, port: u32, n: nat, b: byte, tail: seq<ReadResult>)
    requires n > 0 && PumpOk(w, port, Data([b]))
    ensures var u := Pumped(w, port, Data([b]));
            && PumpAll(w, port, Drip(n, b, tail)) == PumpAll(u, port, Drip(n - 1, b, tail))
            && (PumpAllowed(u, port, Drip(n - 1, b, tail)) ==> PumpAllowed(w, port, Drip(n, b, tail)))
  {
    var all := Drip(n, b, tail);
    assert all[0] == Data([b]) && all[1..] == Drip(n - 1, b, tail);
  }

  // From `w` one byte leads to `u` with one packet more.
  ghost predicate DripsTo(w: World, u: World, pkt: Packet, port: u32, n: nat, b: byte, tail: seq<ReadResult>)
    requires n > 0
  {
    && u.pushed == w.pushed + [pkt] && SingleBytes([pkt], port)
    && PumpAll(w, port, Drip(n, b, tail)) == PumpAll(u, port, Drip(n - 1, b, tail))
    && (PumpAllowed(u, port, Drip(n - 1, b, tail)) ==> PumpAllowed(w, port, Drip(n, b, tail)))
  }

  lemma DripNext(w: World, port: u32, n: nat, spare: nat, b: byte, tail: seq<ReadResult>)
    returns (pkt: Packet, u: World)
    requires n > 0 && Flowing(w, port, n, spare)
    ensures Flowing(u, port, n - 1, spare) && DripsTo(w, u, pkt, port, n, b, tail)
  {
    pkt := DripOne(w, port, b);
    u := Pumped(w, port, Data([b]));
    DripStep(w, port, n, b, tail);
  }

  lemma FloodStarts(before: seq<Packet>, between: seq<Packet>, after: seq<Packet>, pkt: Packet, rest: seq<Packet>,
                    port: u32)
    requires SingleBytes([pkt], port) && SingleBytes(rest, port) && between == before + [pkt] && after == between + rest
    ensures after == before + ([pkt] + rest) && SingleBytes([pkt] + rest, port)
  {
    assert [pkt][0] == pkt;
  }

  // Nothing more is read.
  ghost predicate Rests(w: World, port: u32, tail: seq<ReadResult>)
  {
    PumpAllowed(w, port, tail) && PumpAll(w, port, tail) == w
  }

  // Worlds that are `ready` for a number of bytes take one and are ready for the rest.
  lemma {:induction false} Floods(ready: (World, nat) -> bool, w: World, port: u32, n: nat, b: byte,
                                  tail: seq<ReadResult>)
    returns (flood: seq<Packet>)
    requires ready(w, n)
    requires forall v: World, k: nat :: k > 0 && ready(v, k) ==>
               exists u, pkt :: ready(u, k - 1) && DripsTo(v, u, pkt, port, k, b, tail)
    requires forall v: World :: ready(v, 0) ==> Rests(v, port, tail)
    ensures PumpAllowed(w, port, Drip(n, b, tail)) && |flood| == n && SingleBytes(flood, port)
    ensures PumpAll(w, port, Drip(n, b, tail)).pushed == w.pushed + flood
    ensures ready(PumpAll(w, port, Drip(n, b, tail)), 0)
    decreases n
  {
    if n == 0 {
      flood := [];
      assert Rests(w, port, tail);
    } else {
      var u, pkt :| ready(u, n - 1) && DripsTo(w, u, pkt, port, n, b, tail);
      var rest := Floods(ready, u, port, n - 1, b, tail);
      flood := [pkt] + rest;
      FloodStarts(w.pushed, u.pushed, PumpAll(u, port, Drip(n - 1, b, tail)).pushed, pkt, rest, port);
    }
  }

  ghost function Ready(port: u32, spare: nat): (World, nat) -> bool
  {
    (w: World, n: nat) => Flowing(w, port, n, spare)
  }

  lemma ReadyDrips(w: World, port: u32, n: nat, spare: nat, b: byte, tail: seq<ReadResult>)
    requires n > 0 && Ready(port, spare)(w, n)
    ensures exists u, pkt :: Ready(port, spare)(u, n - 1) && DripsTo(w, u, pkt, port, n, b, tail)
  {
    var pkt, u := DripNext(w, port, n, spare, b, tail);
    assert Ready(port, spare)(u, n - 1) && DripsTo(w, u, pkt, port, n, b, tail);
  }

  // The pump stops by itself when the window is used up; otherwise the socket must have no more.
  function Tail(spare: nat): seq<ReadResult>
  {
    if spare == 0 then [] else [ReadBlocked]
  }

  lemma ReadyRests(w: World, port: u32, spare: nat)
    requires Ready(port, spare)(w, 0)
    ensures Rests(w, port, Tail(spare))
  {
    if spare > 0 {
      var tail := Tail(spare);
      assert PumpOk(w, port, tail[0]) && Pumped(w, port, tail[0]) == w && tail[1..] == [];
      assert PumpAll(w, port, []) == w;
    }
  }

  // A socket that gives one byte at a time makes one packet of each, as far as the window goes.
  lemma DripPushes(w: World, port: u32, n: nat, spare: nat, b: byte) returns (flood: seq<Packet>)
    requires Flowing(w, port, n, spare)
    ensures PumpAllowed(w, port, Drip(n, b, Tail(spare))) && |flood| == n && SingleBytes(flood, port)
    ensures PumpAll(w, port, Drip(n, b, Tail(spare))).pushed == w.pushed + flood
    ensures Flowing(PumpAll(w, port, Drip(n, b, Tail(spare))), port, 0, spare)
  {
    forall v: World, k: nat | k > 0 && Ready(port, spare)(v, k)
      ensures exists u, pkt :: Ready(port, spare)(u, k - 1) && DripsTo(v, u, pkt, port, k, b, Tail(spare))
    {
      ReadyDrips(v, port, k, spare, b, Tail(spare));
    }
    forall v: World | Ready(port, spare)(v, 0) ensures Rests(v, port, Tail(spare)) { ReadyRests(v, port, spare); }
    flood := Floods(Ready(port, spare), w, port, n, b, Tail(spare));
  }

  // --- what is lost ------------------------------------------------------------------------------------

  // One packet more than the backlog holds, with no buffer posted: the first byte is lost.
  lemma FloodLoses(trace: seq<Rx.Event<Packet>>, flood: seq<Packet>, port: u32)
    requires Rx.Run(VSOCK_BACKLOG_MAX, trace).buffers == 0 && Rx.Run(VSOCK_BACKLOG_MAX, trace).backlog == []
    requires |flood| == VSOCK_BACKLOG_MAX + 1 && SingleBytes(flood, port)
    ensures Rx.Stream(Carries(port), Rx.Dropped(VSOCK_BACKLOG_MAX, trace + Rx.Pushes(flood))) != []
  {
    Rx.OverflowLosesTheFirst(VSOCK_BACKLOG_MAX, trace, flood);
    Rx.SnocStream(Carries(port), Rx.Dropped(VSOCK_BACKLOG_MAX, trace), flood[0]);
    assert |Carries(port)(flood[0])| == 1;
  }

  // In every state of the device with a window of more than the backlog holds, an empty backlog and no
  // buffer posted, a dripping socket loses the guest a byte.
  lemma AnyFloodLoses(w: World, port: u32, trace: seq<Rx.Event<Packet>>, spare: nat, b: byte)
    returns (flood: seq<Packet>)
    requires Flowing(w, port, VSOCK_BACKLOG_MAX + 1, spare) && Rx.Items(trace) == w.pushed
    requires Rx.Run(VSOCK_BACKLOG_MAX, trace).buffers == 0 && Rx.Run(VSOCK_BACKLOG_MAX, trace).backlog == []
    ensures var gives := Drip(VSOCK_BACKLOG_MAX + 1, b, Tail(spare));
            && PumpAllowed(w, port, gives) && PumpAll(w, port, gives).pushed == w.pushed + flood
            && Flowing(PumpAll(w, port, gives), port, 0, spare)
    ensures Rx.Stream(Carries(port), Rx.Dropped(VSOCK_BACKLOG_MAX, trace + Rx.Pushes(flood))) != []
  {
    flood := DripPushes(w, port, VSOCK_BACKLOG_MAX + 1, spare, b);
    FloodLoses(trace, flood, port);
  }

  // --- a run -------------------------------------------------------------------------------------------------

  const WINDOW: u32 := 257

  // The guest accepts the connection with a buffer of 257 bytes.
  function Acceptance(cid: u64, guestPort: u32): Header
  {
    Header(cid, HOST_CID, guestPort, FIRST_HOST_PORT, 0, TYPE_STREAM, OP_RESPONSE, 0, WINDOW, 0)
  }

  function Accepts(cid: u64, guestPort: u32): Input
  {
    Arrives(ToBytes(Acceptance(cid, guestPort)), 0, 0)
  }

  const QUIET := Answer([], [], 0, 0)

  // The states passed through before the flood: nothing, a connection asked for, and accepted.
  ghost function Asked(cid: u64, guestPort: u32): World
  {
    Opened(Start(cid), guestPort, 0)
  }

  lemma Asking(cid: u64, guestPort: u32)
    ensures StepsTo(Start(cid), Connects(guestPort), QUIET, Asked(cid, guestPort)) && Good(Asked(cid, guestPort), None)
    ensures var w := Asked(cid, guestPort);
            && w.conns == map[FIRST_HOST_PORT := NewConn(FIRST_HOST_PORT, guestPort, 0)]
            && |w.pushed| == 1 && w.pushed[0].hdr.op == OP_REQUEST
  {
    assert FirstFree(Start(cid), 0);
    StepKeepsGood(Start(cid), Connects(guestPort), QUIET);
  }

  lemma AcceptanceArrives(cid: u64, guestPort: u32) returns (m: Message)
    ensures MessageOf(ToBytes(Acceptance(cid, guestPort)), 0, 0) == Some(m)
    ensures m.hdr == Acceptance(cid, guestPort) && m.consumed == 0
  {
    var hdr := Acceptance(cid, guestPort);
    HeaderRoundTrip(hdr, []);
    assert ToBytes(hdr) + [] == ToBytes(hdr);
    m := MessageOf(ToBytes(hdr), 0, 0).value;
  }

  lemma Establishing(w: World, m: Message, cid: u64, guestPort: u32)
    requires Shaped(w) && w.conns == map[FIRST_HOST_PORT := NewConn(FIRST_HOST_PORT, guestPort, 0)]
    requires m.hdr == Acceptance(cid, guestPort)
    ensures HandleOk(w, m, QUIET)
    ensures var v := Handled(w, m, QUIET);
            && FIRST_HOST_PORT in v.conns && v.conns[FIRST_HOST_PORT].state.Established? && v.pushed == w.pushed
            && v.conns[FIRST_HOST_PORT].credit == CreditTracker(WINDOW, 0, 0)
  {
    HandleAddressed(w, m, QUIET);
  }

  lemma Accepting(cid: u64, guestPort: u32) returns (w: World)
    ensures StepsTo(Asked(cid, guestPort), Accepts(cid, guestPort), QUIET, w)
    ensures Flowing(w, FIRST_HOST_PORT, VSOCK_BACKLOG_MAX + 1, 0) && w.pushed == Asked(cid, guestPort).pushed
  {
    var asked := Asked(cid, guestPort);
    Asking(cid, guestPort);
    var m := AcceptanceArrives(cid, guestPort);
    Establishing(asked, m, cid, guestPort);
    w := Handled(asked, m, QUIET);
    StepKeepsGood(asked, Accepts(cid, guestPort), QUIET);
  }

  // The guest posts one buffer, which the request for a connection takes.
  function RingBefore(request: Packet): seq<Rx.Event<Packet>>
  {
    [Rx.Post(1), Rx.Notify, Rx.Push(request)]
  }

  lemma RingIsEmpty(request: Packet)
    ensures Rx.Items(RingBefore(request)) == [request] && Rx.Posts(RingBefore(request)) == [Rx.Post(1), Rx.Notify]
    ensures Rx.Run(VSOCK_BACKLOG_MAX, RingBefore(request)) == Rx.Rx(0, [], [request])
  {
    var one, two: seq<Rx.Event<Packet>> := [Rx.Post(1)], [Rx.Post(1), Rx.Notify];
    assert RingBefore(request)[..2] == two && two[..1] == one && one[..0] == [];
    assert Rx.Run(VSOCK_BACKLOG_MAX, one) == Rx.Rx(1, [], []);
    assert Rx.Run(VSOCK_BACKLOG_MAX, two) == Rx.Rx(1, [], []);
    Rx.RestSnoc(one);
    Rx.RestSnoc(two);
    Rx.RestSnoc(RingBefore(request));
  }

  // The run: a connection is asked for and accepted with a window of 257 bytes, one buffer is posted in
  // all, and the socket gives 257 bytes one at a time. Every packet is within the window, the first
  // data packet is dropped, and what is kept is not the stream the socket gave.
  lemma FloodBreaksTheStream(cid: u64, guestPort: u32, b: byte)
    returns (worlds: seq<World>, inputs: seq<Input>, answers: seq<Answer>, trace: seq<Rx.Event<Packet>>)
    ensures Runs(worlds, inputs, answers) && worlds[0] == Start(cid)
    ensures inputs == [Connects(guestPort), Accepts(cid, guestPort), SocketReady(FIRST_HOST_PORT, false, true, false)]
    ensures Rx.Items(trace) == worlds[3].pushed && Rx.Posts(trace) == [Rx.Post(1), Rx.Notify]
    ensures var w := worlds[3];
            && Good(w, None) && FIRST_HOST_PORT in w.conns
            && Rx.Stream(Carries(FIRST_HOST_PORT), Rx.Dropped(VSOCK_BACKLOG_MAX, trace)) != []
            && var fd := SocketOf(w, FIRST_HOST_PORT);
               Rx.Stream(Carries(FIRST_HOST_PORT), Rx.Kept(Rx.Run(VSOCK_BACKLOG_MAX, trace))) !=
               Rx.Stream(Carries(FIRST_HOST_PORT), w.pushed[..w.opens[fd].pushedAt]) + w.logs[fd].read
  {
    var asked := Asked(cid, guestPort);
    Asking(cid, guestPort);
    var accepted := Accepting(cid, guestPort);
    var flooded, flood, flowing := Flooding(accepted, asked.pushed[0], b);
    inputs := [Connects(guestPort), Accepts(cid, guestPort), SocketReady(FIRST_HOST_PORT, false, true, false)];
    answers := [QUIET, QUIET, flowing];
    worlds := [Start(cid), asked, accepted, flooded];
    trace := RingBefore(asked.pushed[0]) + Rx.Pushes(flood);
    ChainThree(StepsTo, Start(cid), asked, accepted, flooded, inputs[0], inputs[1], inputs[2], QUIET, QUIET, flowing);
    StreamReachesGuest(flooded, FIRST_HOST_PORT, trace);
  }

  lemma ServePump(w: World, port: u32, gives: seq<ReadResult>)
    requires Shaped(w) && PumpAllowed(w, port, gives)
    ensures StepsTo(w, SocketReady(port, false, true, false), Answer([], gives, 0, 0), PumpAll(w, port, gives))
  {
  }

  lemma Flooding(w: World, request: Packet, b: byte) returns (v: World, flood: seq<Packet>, a: Answer)
    requires Flowing(w, FIRST_HOST_PORT, VSOCK_BACKLOG_MAX + 1, 0) && w.pushed == [request]
    ensures StepsTo(w, SocketReady(FIRST_HOST_PORT, false, true, false), a, v)
    ensures Good(v, None) && FIRST_HOST_PORT in v.conns
    ensures var trace := RingBefore(request) + Rx.Pushes(flood);
            && Rx.Items(trace) == v.pushed && Rx.Posts(trace) == [Rx.Post(1), Rx.Notify]
            && Rx.Stream(Carries(FIRST_HOST_PORT), Rx.Dropped(VSOCK_BACKLOG_MAX, trace)) != []
  {
    RingIsEmpty(request);
    flood := AnyFloodLoses(w, FIRST_HOST_PORT, RingBefore(request), 0, b);
    Rx.ItemsOfPushes(RingBefore(request), flood);
    var gives := Drip(VSOCK_BACKLOG_MAX + 1, b, Tail(0));
    a := Answer([], gives, 0, 0);
    v := PumpAll(w, FIRST_HOST_PORT, gives);
    ServePump(w, FIRST_HOST_PORT, gives);
  }
}
