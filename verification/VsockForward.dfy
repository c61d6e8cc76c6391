// What no step takes back: sockets keep their connections, what is written stays written, and a live
// connection was live before or has just been opened.
module VsockForward {
  import opened Prelude
  import opened VsockProto
  import opened VsockWorld
  import opened VsockSteps
  import opened VsockRuns

  // A connection with its socket.
  ghost predicate Known(w: World, port: u32)
  {
    Shaped(w) && port in w.conns && Slotted(w, port)
  }

  lemma GoodIsKnown(w: World, port: u32, owing: Option<u32>)
    requires Good(w, owing) && port in w.conns
    ensures Known(w, port)
  {
  }

  // Sockets keep their connections, what is written stays written, and no connection changes its socket.
  ghost predicate Onward(w: World, v: World)
  {
    && v.opens == w.opens && |v.flows| == |w.flows|
    && (forall fd :: 0 <= fd < |w.flows| ==> |w.flows[fd].written| <= |v.flows[fd].written|)
    && (forall p :: p in v.conns ==> p in w.conns && v.conns[p].uds == w.conns[p].uds)
  }

  lemma PumpOnward(w: World, port: u32, r: ReadResult)
    requires PumpOk(w, port, r)
    ensures Onward(w, Pumped(w, port, r))
  {
  }

  lemma {:induction false} PumpAllOnward(w: World, port: u32, answers: seq<ReadResult>)
    ensures Onward(w, PumpAll(w, port, answers))
    decreases |answers|
  {
    if answers != [] && PumpOk(w, port, answers[0]) {
      PumpOnward(w, port, answers[0]);
      PumpAllOnward(Pumped(w, port, answers[0]), port, answers[1..]);
    }
  }

  lemma FlushOnward(w: World, port: u32, a: WriteAnswer)
    requires FlushOk(w, port, a)
    ensures Onward(w, Flushed(w, port, a))
  {
  }

  lemma {:induction false} FlushAllOnward(w: World, port: u32, answers: seq<WriteAnswer>)
    ensures Onward(w, FlushAll(w, port, answers))
    decreases |answers|
  {
    if answers != [] && FlushOk(w, port, answers[0]) {
      FlushOnward(w, port, answers[0]);
      FlushAllOnward(Flushed(w, port, answers[0]), port, answers[1..]);
    }
  }

  lemma FlushToUdsOnward(w: World, port: u32, answers: seq<WriteAnswer>)
    ensures Onward(w, FlushToUds(w, port, answers))
  {
    FlushAllOnward(w, port, answers);
  }

  lemma ReceivedOnward(w: World, m: Message, greeted: nat)
    requires Shaped(w) && m.hdr.dstPort in w.conns && greeted <= |OkLine(m.hdr.dstPort)|
    ensures Onward(w, Received(w, m, greeted))
  {
  }

  lemma DataOnward(w: World, m: Message, answers: seq<WriteAnswer>)
    requires Shaped(w) && m.hdr.dstPort in w.conns
    ensures Onward(w, FlushToUds(Received(w, m, 0), m.hdr.dstPort, answers))
  {
    ReceivedOnward(w, m, 0);
    FlushToUdsOnward(Received(w, m, 0), m.hdr.dstPort, answers);
  }

  lemma ReplyOnward(w: World, m: Message, a: Answer)
    requires Shaped(w) && HandleOk(w, m, a)
    requires m.hdr.dstPort !in w.conns || m.hdr.op == OP_REQUEST || m.hdr.op == OP_SHUTDOWN || m.hdr.op == OP_RST
    ensures Onward(w, Handled(w, m, a))
  {
  }

  lemma HandleOnward(w: World, m: Message, a: Answer)
    requires Shaped(w) && HandleOk(w, m, a)
    ensures Onward(w, Handled(w, m, a))
  {
    if m.hdr.dstPort !in w.conns || m.hdr.op == OP_REQUEST || m.hdr.op == OP_SHUTDOWN || m.hdr.op == OP_RST {
      ReplyOnward(w, m, a);
    } else if m.hdr.op == OP_RW {
      DataOnward(w, m, a.writes);
    } else {
      ReceivedOnward(w, m, 0);
      ReceivedOnward(w, m, a.greeted);
    }
  }

  lemma ServeOnward(w: World, port: u32, pollOut: bool, pollIn: bool, hangup: bool, a: Answer)
    ensures Onward(w, Served(w, port, pollOut, pollIn, hangup, a))
  {
    FlushToUdsOnward(w, port, a.writes);
    var flushed := if pollOut then FlushToUds(w, port, a.writes) else w;
    PumpAllOnward(flushed, port, a.gives);
  }

  // A step is onward, or it opens one more connection, which has heard nothing.
  ghost predicate Forward(w: World, v: World)
  {
    && |w.opens| <= |v.opens| <= |v.flows| && |w.opens| <= |w.flows|
    && (forall fd :: 0 <= fd < |w.opens| ==>
          v.opens[fd] == w.opens[fd] && |w.flows[fd].written| <= |v.flows[fd].written|)
    && (forall fd :: |w.opens| <= fd < |v.opens| ==> v.opens[fd].inboxAt == |v.inbox|)
    && (forall p :: p in v.conns && v.conns[p].uds < |w.opens| ==> p in w.conns && v.conns[p].uds == w.conns[p].uds)
  }

  lemma OpenForward(w: World, guestPort: u32, k: nat)
    requires Shaped(w)
    ensures Forward(w, Opened(w, guestPort, k))
  {
  }

  lemma StepForward(w: World, input: Input, a: Answer)
    requires StepOk(w, input, a)
    ensures Forward(w, Stepped(w, input, a))
  {
    match input {
      case Arrives(raw, consumed, seen) =>
        var m := MessageOf(raw, consumed, seen);
        if m.Some? { HandleOnward(w, m.value, a); }
      case Connects(guestPort) => if |w.conns| < PORT_SPACE { OpenForward(w, guestPort, a.probes); }
      case SocketReady(port, pollOut, pollIn, hangup) => ServeOnward(w, port, pollOut, pollIn, hangup, a);
    }
  }
}
