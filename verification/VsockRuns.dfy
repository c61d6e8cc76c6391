// Whole runs of the vsock reactor: packets from the guest, completed handshakes and socket events, in
// any order, with any answers of the sockets.
module VsockRuns {
  import opened Prelude
  import opened VsockProto
  import opened VsockWorld
  import opened VsockSteps
  import opened Chains

  // What the sockets answered during one input: to writes, to reads, how much of a greeting they
  // took; and how many ports were tried for a new connection.
  datatype Answer = Answer(writes: seq<WriteAnswer>, gives: seq<ReadResult>, greeted: nat, probes: nat)

  // --- messages ----------------------------------------------------------------------------------

  function ResetReply(m: Message): Packet
  {
    RstPacket(m.hdr.srcCid, m.hdr.dstPort, m.hdr.srcPort)
  }

  ghost function Handled(w: World, m: Message, a: Answer): World
    requires Shaped(w) && a.greeted <= |OkLine(m.hdr.dstPort)|
  {
    var port := m.hdr.dstPort;
    if m.hdr.op == OP_REQUEST then
      Push(Arrive(w, m).(ready := w.ready || port == BOOT_PORT), ResetReply(m))
    else if m.hdr.op == OP_SHUTDOWN then Drop(Push(Arrive(w, m), ResetReply(m)), port)
    else if m.hdr.op == OP_RST then Drop(Arrive(w, m), port)
    else if port !in w.conns then Arrive(w, m)
    else if m.hdr.op == OP_RW then FlushToUds(Received(w, m, 0), port, a.writes)
    else if m.hdr.op == OP_CREDIT_UPDATE then Received(w, m, 0)
    else if m.hdr.op == OP_RESPONSE && w.conns[port].state.Connecting? then Received(w, m, a.greeted)
    else if m.hdr.op == OP_CREDIT_REQUEST then Tell(Arrive(w, m), port, OP_CREDIT_UPDATE)
    else Arrive(w, m)
  }

  ghost predicate HandleOk(w: World, m: Message, a: Answer)
  {
    && a.greeted <= |OkLine(m.hdr.dstPort)|
    && (Shaped(w) && m.hdr.op == OP_RW && m.hdr.dstPort in w.conns ==>
          FlushAllowed(Received(w, m, 0), m.hdr.dstPort, a.writes))
  }

  lemma HandleAddressed(w: World, m: Message, a: Answer)
    requires Shaped(w) && m.hdr.dstPort in w.conns && a.greeted <= |OkLine(m.hdr.dstPort)|
    requires m.hdr.op == OP_RW || m.hdr.op == OP_CREDIT_UPDATE ||
             (m.hdr.op == OP_RESPONSE && w.conns[m.hdr.dstPort].state.Connecting?)
    requires m.hdr.op != OP_RESPONSE ==> a.greeted == 0
    requires m.hdr.op == OP_RW ==> FlushAllowed(Received(w, m, 0), m.hdr.dstPort, a.writes)
    ensures HandleOk(w, m, a)
    ensures Handled(w, m, a) == if m.hdr.op == OP_RW then FlushToUds(Received(w, m, 0), m.hdr.dstPort, a.writes)
                                else Received(w, m, a.greeted)
  {
  }

  lemma ArriveKeepsGood(w: World, m: Message)
    requires Good(w, None) && !Resets(m)
    requires m.hdr.dstPort in w.conns ==>
               && m.hdr.op != OP_RW && m.hdr.op != OP_CREDIT_UPDATE
               && (m.hdr.op == OP_RESPONSE ==> w.conns[m.hdr.dstPort].state.Established?)
    ensures Good(Arrive(w, m), None)
  {
    var port := m.hdr.dstPort;
    if port in w.conns {
      var fd := SocketOf(w, port);
      assert Slotted(w, port) && Joined(w, port) && Placed(w, w.opens[fd]);
      InAppend(w.inbox, m, w.opens[fd].inboxAt, port);
    }
    PassKeepsGood(w, Arrive(w, m), port);
  }

  lemma RequestKeepsGood(w: World, m: Message)
    requires Good(w, None) && m.hdr.op == OP_REQUEST
    ensures Good(Push(Arrive(w, m).(ready := w.ready || m.hdr.dstPort == BOOT_PORT), ResetReply(m)), None)
  {
    ArriveKeepsGood(w, m);
    PassKeepsGood(Arrive(w, m), Push(Arrive(w, m).(ready := w.ready || m.hdr.dstPort == BOOT_PORT), ResetReply(m)),
                  m.hdr.dstPort);
  }

  // A reset is heard by the connection it is for.
  lemma ResetIsHeard(w: World, m: Message)
    requires Shaped(w) && Resets(m) && m.hdr.dstPort in w.conns
    ensures HeardOf(Arrive(w, m), SocketOf(w, m.hdr.dstPort)).reset
  {
    var port := m.hdr.dstPort;
    var fd := SocketOf(w, port);
    assert Slotted(w, port) && Placed(w, w.opens[fd]);
    InAppend(w.inbox, m, w.opens[fd].inboxAt, port);
  }

  lemma ShutdownKeepsGood(w: World, m: Message)
    requires Good(w, None) && Resets(m)
    ensures Good(Drop(Push(Arrive(w, m), ResetReply(m)), m.hdr.dstPort), None)
  {
    if m.hdr.dstPort in w.conns { ResetIsHeard(w, m); }
    RemoveKeepsGood(w, Drop(Push(Arrive(w, m), ResetReply(m)), m.hdr.dstPort), m.hdr.dstPort);
  }

  lemma RstKeepsGood(w: World, m: Message)
    requires Good(w, None) && Resets(m)
    ensures Good(Drop(Arrive(w, m), m.hdr.dstPort), None)
  {
    if m.hdr.dstPort in w.conns { ResetIsHeard(w, m); }
    RemoveKeepsGood(w, Drop(Arrive(w, m), m.hdr.dstPort), m.hdr.dstPort);
  }

  lemma HandleKeepsGood(w: World, m: Message, a: Answer)
    requires Good(w, None) && HandleOk(w, m, a)
    ensures Good(Handled(w, m, a), None)
  {
    var port := m.hdr.dstPort;
    if m.hdr.op == OP_REQUEST {
      RequestKeepsGood(w, m);
    } else if Resets(m) {
      if m.hdr.op == OP_SHUTDOWN { ShutdownKeepsGood(w, m); } else { RstKeepsGood(w, m); }
    } else if port !in w.conns {
      ArriveKeepsGood(w, m);
    } else if m.hdr.op == OP_RW {
      ReceiveKeepsGood(w, m, 0);
      FlushToUdsKeepsGood(Received(w, m, 0), port, a.writes);
    } else if m.hdr.op == OP_CREDIT_UPDATE {
      ReceiveKeepsGood(w, m, 0);
    } else if m.hdr.op == OP_RESPONSE && w.conns[port].state.Connecting? {
      ReceiveKeepsGood(w, m, a.greeted);
    } else {
      ArriveKeepsGood(w, m);
      if m.hdr.op == OP_CREDIT_REQUEST {
        assert Good(Arrive(w, m), Some(port));
        TellKeepsGood(Arrive(w, m), port, OP_CREDIT_UPDATE);
      }
    }
  }

  // --- sockets ---------------------------------------------------------------------------------------

  function HangUp(w: World, port: u32): World
  {
    var v := w.(hups := w.hups + [port]);
    if port !in w.conns then v
    else Push(Drop(v, port), RstPacket(w.cid, w.conns[port].localPort, w.conns[port].guestPort))
  }

  lemma HangUpKeepsGood(w: World, port: u32)
    requires Good(w, None)
    ensures Good(HangUp(w, port), None)
  {
    var v := HangUp(w, port);
    if port in w.conns {
      var fd := SocketOf(w, port);
      assert Slotted(w, port) && Placed(w, w.opens[fd]);
      HupAppend(w.hups, port, w.opens[fd].hupsAt, port);
    } else {
      assert v.conns == w.conns - {port};
    }
    RemoveKeepsGood(w, v, port);
  }

  // One socket's readiness: flush, then pump, then close on a hang-up.
  ghost function Served(w: World, port: u32, pollOut: bool, pollIn: bool, hangup: bool, a: Answer): World
  {
    var flushed := if pollOut then FlushToUds(w, port, a.writes) else w;
    var pumped := if pollIn then PumpAll(flushed, port, a.gives) else flushed;
    if hangup then HangUp(pumped, port) else pumped
  }

  ghost predicate ServeOk(w: World, port: u32, pollOut: bool, pollIn: bool, a: Answer)
  {
    && (pollOut ==> FlushAllowed(w, port, a.writes))
    && (pollIn ==> PumpAllowed(if pollOut then FlushToUds(w, port, a.writes) else w, port, a.gives))
  }

  lemma ServeKeepsGood(w: World, port: u32, pollOut: bool, pollIn: bool, hangup: bool, a: Answer)
    requires Good(w, None) && ServeOk(w, port, pollOut, pollIn, a)
    ensures Good(Served(w, port, pollOut, pollIn, hangup, a), None)
  {
    var flushed := if pollOut then FlushToUds(w, port, a.writes) else w;
    var pumped := if pollIn then PumpAll(flushed, port, a.gives) else flushed;
    if pollOut { FlushToUdsKeepsGood(w, port, a.writes); }
    if pollIn { PumpAllKeepsGood(flushed, port, a.gives); }
    if hangup { HangUpKeepsGood(pumped, port); }
  }

  // --- new connections ----------------------------------------------------------------------------------

  // The `k`-th port tried from `start` on, wrapping within the high range.
  function PortAt(start: u32, k: nat): u32
    requires FIRST_HOST_PORT <= start
  {
    FIRST_HOST_PORT + (start - FIRST_HOST_PORT + k) % PORT_SPACE
  }

  // The first free port from `nextPort` on is the `k`-th.
  predicate FirstFree(w: World, k: nat)
    requires FIRST_HOST_PORT <= w.nextPort
  {
    PortAt(w.nextPort, k) !in w.conns && forall j :: 0 <= j < k ==> PortAt(w.nextPort, j) in w.conns
  }

  function NewConn(port: u32, guestPort: u32, fd: nat): Conn
  {
    Conn(port, guestPort, fd, Connecting, NO_CREDIT, 0, 0, [])
  }

  function Inserted(w: World, port: u32, guestPort: u32): World
  {
    w.(conns := w.conns[port := NewConn(port, guestPort, |w.opens|)],
    opens := w.opens + [Opening(port, guestPort, |w.pushed|, |w.inbox|, |w.hups|)],
    logs := w.logs + [SocketLog([], [], false)],
    flows := w.flows + [Flow([], [], None)])
  }

  function Opened(w: World, guestPort: u32, k: nat): World
    requires FIRST_HOST_PORT <= w.nextPort
  {
    var port := PortAt(w.nextPort, k);
    Tell(Inserted(w, port, guestPort).(nextPort := PortAt(w.nextPort, k + 1)), port, OP_REQUEST)
  }

  lemma InsertShape(w: World, v: World, port: u32, guestPort: u32)
    requires Shaped(w) && port !in w.conns && FIRST_HOST_PORT <= v.nextPort
    requires v == Inserted(w, port, guestPort).(nextPort := v.nextPort)
    ensures Shaped(v)
  {
    forall p | p in v.conns ensures Slotted(v, p) { if p != port { assert Slotted(w, p); } }
    forall fd | 0 <= fd < |v.opens| ensures Placed(v, v.opens[fd]) {
      if fd < |w.opens| { assert Placed(w, w.opens[fd]); }
    }
  }

  lemma InsertJoins(w: World, v: World, port: u32, guestPort: u32)
    requires Shaped(v) && v == Inserted(w, port, guestPort).(nextPort := v.nextPort) && Shaped(w)
    ensures Joined(v, port) && Settled(v.conns[port], OutOf(v, |w.opens|))
    ensures Live(v, |w.opens|) && !Ended(v, |w.opens|)
  {
  }

  lemma InsertOthers(w: World, v: World, port: u32, guestPort: u32, p: u32)
    requires Shaped(w) && Shaped(v) && v == Inserted(w, port, guestPort).(nextPort := v.nextPort)
    requires p in w.conns && p != port && Joined(w, p) && Settled(w.conns[p], OutOf(w, SocketOf(w, p)))
    ensures Joined(v, p) && Settled(v.conns[p], OutOf(v, SocketOf(v, p)))
  {
    assert Slotted(w, p) && SameBorders(w, v, w.conns[p].uds);
    FrameJoined(w, v, p);
  }

  lemma InsertKeepsGood(w: World, v: World, port: u32, guestPort: u32)
    requires Good(w, None) && port !in w.conns && FIRST_HOST_PORT <= v.nextPort
    requires v == Inserted(w, port, guestPort).(nextPort := v.nextPort)
    ensures Good(v, None)
  {
    InsertShape(w, v, port, guestPort);
    InsertJoins(w, v, port, guestPort);
    forall p | p in v.conns ensures Joined(v, p) && Settled(v.conns[p], OutOf(v, SocketOf(v, p))) {
      if p != port { InsertOthers(w, v, port, guestPort, p); }
    }
    forall fd | 0 <= fd < |v.opens| ensures Live(v, fd) <==> !Ended(v, fd) {
      if fd < |w.opens| { InsertLives(w, v, port, guestPort, fd); }
    }
  }

  lemma InsertLives(w: World, v: World, port: u32, guestPort: u32, fd: nat)
    requires Shaped(w) && v == Inserted(w, port, guestPort).(nextPort := v.nextPort) && port !in w.conns
    requires fd < |w.opens| && (Live(w, fd) <==> !Ended(w, fd))
    ensures Live(v, fd) <==> !Ended(v, fd)
  {
    if Live(w, fd) { assert w.opens[fd].port != port; }
  }

  lemma OpenKeepsGood(w: World, guestPort: u32, k: nat)
    requires Good(w, None) && FirstFree(w, k)
    ensures Good(Opened(w, guestPort, k), None)
  {
    var port := PortAt(w.nextPort, k);
    var v := Inserted(w, port, guestPort).(nextPort := PortAt(w.nextPort, k + 1));
    InsertKeepsGood(w, v, port, guestPort);
    assert Good(v, Some(port));
    TellKeepsGood(v, port, OP_REQUEST);
  }

  // --- runs ------------------------------------------------------------------------------------------------

  datatype Input =
    | Arrives(raw: seq<byte>, consumed: nat, seen: nat)
    | Connects(guestPort: u32)
    | SocketReady(port: u32, pollOut: bool, pollIn: bool, hangup: bool)

  // A packet too short for a header is none; a payload is clipped to the length the header gives.
  function MessageOf(raw: seq<byte>, consumed: nat, seen: nat): Option<Message>
  {
    var hdr := Parse(raw);
    if hdr.None? then None
    else
      var payload := raw[HEADER_LEN..];
      Some(Message(hdr.value, payload[..Min(hdr.value.len, |payload|)], consumed, seen))
  }

  ghost predicate StepOk(w: World, input: Input, a: Answer)
  {
    && Shaped(w)
    && match input
       case Arrives(raw, consumed, seen) =>
         var m := MessageOf(raw, consumed, seen);
         m.Some? ==> HandleOk(w, m.value, a)
       case Connects(_) => |w.conns| < PORT_SPACE ==> FirstFree(w, a.probes)
       case SocketReady(port, pollOut, pollIn, _) => ServeOk(w, port, pollOut, pollIn, a)
  }

  ghost function Stepped(w: World, input: Input, a: Answer): World
    requires StepOk(w, input, a)
  {
    match input
    case Arrives(raw, consumed, seen) =>
      var m := MessageOf(raw, consumed, seen);
      if m.None? then w else Handled(w, m.value, a)
    case Connects(guestPort) => if |w.conns| < PORT_SPACE then Opened(w, guestPort, a.probes) else w
    case SocketReady(port, pollOut, pollIn, hangup) => Served(w, port, pollOut, pollIn, hangup, a)
  }

  lemma StepKeepsGood(w: World, input: Input, a: Answer)
    requires Good(w, None) && StepOk(w, input, a)
    ensures Good(Stepped(w, input, a), None)
  {
    match input {
      case Arrives(raw, consumed, seen) =>
        var m := MessageOf(raw, consumed, seen);
        if m.Some? { HandleKeepsGood(w, m.value, a); }
      case Connects(guestPort) => if |w.conns| < PORT_SPACE { OpenKeepsGood(w, guestPort, a.probes); }
      case SocketReady(port, pollOut, pollIn, hangup) => ServeKeepsGood(w, port, pollOut, pollIn, hangup, a);
    }
  }

  // The worlds of a run, one more than its inputs.
  ghost predicate Runs(worlds: seq<World>, inputs: seq<Input>, answers: seq<Answer>)
  {
    Chain(StepsTo, worlds, inputs, answers)
  }

  ghost predicate StepsTo(w: World, input: Input, a: Answer, v: World)
  {
    StepOk(w, input, a) && v == Stepped(w, input, a)
  }

  function Start(cid: u64): World
  {
    World(cid, false, FIRST_HOST_PORT, map[], [], [], [], [], [], [])
  }

  lemma {:induction false} RunKeepsGood(worlds: seq<World>, inputs: seq<Input>, answers: seq<Answer>, n: nat)
    requires Runs(worlds, inputs, answers) && Good(worlds[0], None) && n <= |inputs|
    ensures Good(worlds[n], None)
  {
    if n > 0 {
      RunKeepsGood(worlds, inputs, answers, n - 1);
      assert StepsTo(worlds[n - 1], inputs[n - 1], answers[n - 1], worlds[n]);
      StepKeepsGood(worlds[n - 1], inputs[n - 1], answers[n - 1]);
    }
  }

  // Every run, from a fresh device, whatever the guest sends and the sockets answer: the bytes a
  // socket gave are the payloads pushed for its connection, the bytes it took are the payloads the
  // guest sent up to those still buffered, the guest has been told how many, and a connection is
  // live exactly when neither the guest nor its socket has ended it.
  lemma EveryRunIsGood(worlds: seq<World>, inputs: seq<Input>, answers: seq<Answer>, n: nat)
    requires Runs(worlds, inputs, answers) && worlds[0] == Start(worlds[0].cid) && n <= |inputs|
    ensures Good(worlds[n], None)
  {
    RunKeepsGood(worlds, inputs, answers, n);
  }

  // --- what a run has heard ----------------------------------------------------------------------------------

  function Messages(input: Input): seq<Message>
  {
    if !input.Arrives? then []
    else
      var m := MessageOf(input.raw, input.consumed, input.seen);
      if m.None? then [] else [m.value]
  }

  function AllMessages(inputs: seq<Input>): seq<Message>
  {
    if inputs == [] then [] else AllMessages(inputs[..|inputs| - 1]) + Messages(inputs[|inputs| - 1])
  }

  function HangUp1(input: Input): seq<u32>
  {
    if input.SocketReady? && input.hangup then [input.port] else []
  }

  function HangUps(inputs: seq<Input>): seq<u32>
  {
    if inputs == [] then [] else HangUps(inputs[..|inputs| - 1]) + HangUp1(inputs[|inputs| - 1])
  }

  // The guest ports asked for, socket by socket.
  function GuestPorts(opens: seq<Opening>): seq<u32>
  {
    if opens == [] then [] else GuestPorts(opens[..|opens| - 1]) + [opens[|opens| - 1].guestPort]
  }

  function Request1(input: Input): seq<u32>
  {
    if input.Connects? then [input.guestPort] else []
  }

  function Requests(inputs: seq<Input>): seq<u32>
  {
    if inputs == [] then [] else Requests(inputs[..|inputs| - 1]) + Request1(inputs[|inputs| - 1])
  }

  predicate SameArrivals(w: World, v: World)
  {
    v.inbox == w.inbox && v.hups == w.hups && v.opens == w.opens
  }

  lemma {:induction false} PumpHearsNothing(w: World, port: u32, answers: seq<ReadResult>)
    ensures SameArrivals(w, PumpAll(w, port, answers))
    decreases |answers|
  {
    if answers != [] && PumpOk(w, port, answers[0]) {
      PumpHearsNothing(Pumped(w, port, answers[0]), port, answers[1..]);
    }
  }

  lemma {:induction false} FlushHearsNothing(w: World, port: u32, answers: seq<WriteAnswer>)
    ensures SameArrivals(w, FlushAll(w, port, answers))
    decreases |answers|
  {
    if answers != [] && FlushOk(w, port, answers[0]) {
      FlushHearsNothing(Flushed(w, port, answers[0]), port, answers[1..]);
    }
  }

  lemma HandleHears(w: World, m: Message, a: Answer)
    requires Shaped(w) && HandleOk(w, m, a)
    ensures var v := Handled(w, m, a);
            v.inbox == w.inbox + [m] && v.hups == w.hups && v.opens == w.opens
            && v.ready == (w.ready || (m.hdr.op == OP_REQUEST && m.hdr.dstPort == BOOT_PORT))
  {
    if m.hdr.op == OP_RW && m.hdr.dstPort in w.conns {
      FlushHearsNothing(Received(w, m, 0), m.hdr.dstPort, a.writes);
      FlushKeepsReady(Received(w, m, 0), m.hdr.dstPort, a.writes);
    }
  }

  lemma {:induction false} FlushKeepsReady(w: World, port: u32, answers: seq<WriteAnswer>)
    ensures FlushAll(w, port, answers).ready == w.ready
    decreases |answers|
  {
    if answers != [] && FlushOk(w, port, answers[0]) {
      FlushKeepsReady(Flushed(w, port, answers[0]), port, answers[1..]);
    }
  }

  lemma ServeHears(w: World, port: u32, pollOut: bool, pollIn: bool, hangup: bool, a: Answer)
    ensures var v := Served(w, port, pollOut, pollIn, hangup, a);
            v.inbox == w.inbox && v.hups == w.hups + (if hangup then [port] else []) && v.opens == w.opens
  {
    var flushed := if pollOut then FlushToUds(w, port, a.writes) else w;
    FlushHearsNothing(w, port, a.writes);
    PumpHearsNothing(flushed, port, a.gives);
  }

  lemma OpenHears(w: World, guestPort: u32, k: nat)
    requires FIRST_HOST_PORT <= w.nextPort
    ensures var v := Opened(w, guestPort, k);
            v.inbox == w.inbox && v.hups == w.hups && GuestPorts(v.opens) == GuestPorts(w.opens) + [guestPort]
  {
    var v := Opened(w, guestPort, k);
    assert v.opens[..|w.opens|] == w.opens;
  }

  lemma StepHears(w: World, input: Input, a: Answer)
    requires StepOk(w, input, a)
    ensures var v := Stepped(w, input, a);
            && v.inbox == w.inbox + Messages(input)
            && v.hups == w.hups + HangUp1(input)
            && (|w.conns| < PORT_SPACE ==> GuestPorts(v.opens) == GuestPorts(w.opens) + Request1(input))
  {
    match input {
      case Arrives(raw, consumed, seen) =>
        var m := MessageOf(raw, consumed, seen);
        if m.Some? { HandleHears(w, m.value, a); }
      case Connects(guestPort) => if |w.conns| < PORT_SPACE { OpenHears(w, guestPort, a.probes); }
      case SocketReady(port, pollOut, pollIn, hangup) => ServeHears(w, port, pollOut, pollIn, hangup, a);
    }
  }

  lemma Snoc(inputs: seq<Input>, n: nat)
    requires 0 < n <= |inputs|
    ensures AllMessages(inputs[..n]) == AllMessages(inputs[..n - 1]) + Messages(inputs[n - 1])
    ensures HangUps(inputs[..n]) == HangUps(inputs[..n - 1]) + HangUp1(inputs[n - 1])
    ensures Requests(inputs[..n]) == Requests(inputs[..n - 1]) + Request1(inputs[n - 1])
  {
    assert inputs[..n][..n - 1] == inputs[..n - 1];
  }

  lemma StepAt(worlds: seq<World>, inputs: seq<Input>, answers: seq<Answer>, i: nat)
    requires Runs(worlds, inputs, answers) && i < |inputs|
    ensures worlds[i + 1].inbox == worlds[i].inbox + Messages(inputs[i])
    ensures worlds[i + 1].hups == worlds[i].hups + HangUp1(inputs[i])
    ensures |worlds[i].conns| < PORT_SPACE ==>
              GuestPorts(worlds[i + 1].opens) == GuestPorts(worlds[i].opens) + Request1(inputs[i])
  {
    assert StepsTo(worlds[i], inputs[i], answers[i], worlds[i + 1]);
    StepHears(worlds[i], inputs[i], answers[i]);
  }

  lemma Joins<T>(a: seq<T>, b: seq<T>, c: seq<T>)
    ensures a + b + c == a + (b + c)
  {
  }

  // The logs of a run are its inputs, in order.
  lemma {:induction false} RunHears(worlds: seq<World>, inputs: seq<Input>, answers: seq<Answer>, n: nat)
    requires Runs(worlds, inputs, answers) && n <= |inputs|
    ensures worlds[n].inbox == worlds[0].inbox + AllMessages(inputs[..n])
    ensures worlds[n].hups == worlds[0].hups + HangUps(inputs[..n])
  {
    if n > 0 {
      RunHears(worlds, inputs, answers, n - 1);
      StepAt(worlds, inputs, answers, n - 1);
      Snoc(inputs, n);
      Joins(worlds[0].inbox, AllMessages(inputs[..n - 1]), Messages(inputs[n - 1]));
      Joins(worlds[0].hups, HangUps(inputs[..n - 1]), HangUp1(inputs[n - 1]));
    }
  }

  // Every handshake opened a socket's connection, in order, while ports lasted.
  lemma {:induction false} RunOpens(worlds: seq<World>, inputs: seq<Input>, answers: seq<Answer>, n: nat)
    requires Runs(worlds, inputs, answers) && n <= |inputs|
    requires forall i :: 0 <= i < n ==> |worlds[i].conns| < PORT_SPACE
    ensures GuestPorts(worlds[n].opens) == GuestPorts(worlds[0].opens) + Requests(inputs[..n])
  {
    if n == 0 {
      assert inputs[..0] == [];
    } else {
      RunOpens(worlds, inputs, answers, n - 1);
      StepAt(worlds, inputs, answers, n - 1);
      Snoc(inputs, n);
      Lengthen(GuestPorts(worlds[n].opens), GuestPorts(worlds[n - 1].opens), Request1(inputs[n - 1]),
               GuestPorts(worlds[0].opens), Requests(inputs[..n - 1]), Requests(inputs[..n]));
    }
  }

  lemma Lengthen<T>(all: seq<T>, most: seq<T>, more: seq<T>, first: seq<T>, later: seq<T>, now: seq<T>)
    requires all == most + more && most == first + later && now == later + more
    ensures all == first + now
  {
    Joins(first, later, more);
  }
}
