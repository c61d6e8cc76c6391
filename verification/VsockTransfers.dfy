// What a socket's answers come to: a flush moves exactly the bytes its writes took and stops only when the
// buffer is empty or the socket takes no more; a pump reads exactly the bytes its reads gave and stops only
// when the window is closed or the socket gives no more.
module VsockTransfers {
  import opened Prelude
  import opened VsockProto
  import opened VsockWorld
  import opened VsockSteps
  import opened VsockRuns
  import opened VsockForward

  // --- what the answers say ------------------------------------------------------------------------

  function TookIn(answers: seq<WriteAnswer>): nat
  {
    if answers == [] then 0
    else (if answers[0].result.Wrote? then answers[0].result.n else 0) + TookIn(answers[1..])
  }

  function GaveIn(answers: seq<ReadResult>): seq<byte>
  {
    if answers == [] then [] else (if answers[0].Data? then answers[0].bytes else []) + GaveIn(answers[1..])
  }

  // The socket took nothing the last time it was asked.
  predicate Stuck(answers: seq<WriteAnswer>)
  {
    answers != [] && var last := answers[|answers| - 1].result; last.WriteBlocked? || last.WriteFailed? || last.n == 0
  }

  // The socket had nothing to give the last time it was asked.
  predicate Dry(answers: seq<ReadResult>)
  {
    answers != [] && !answers[|answers| - 1].Data?
  }

  // --- flushing ---------------------------------------------------------------------------------------

  // Socket `fd` took `n` bytes from the front of what was buffered for it, if its connection is still there.
  ghost predicate Moves(w: World, v: World, port: u32, n: nat)
    requires port in w.conns && w.conns[port].uds < |w.logs|
  {
    var fd := w.conns[port].uds;
    && n <= |w.conns[port].toUds| && |v.logs| == |w.logs|
    && v.logs[fd].wrote == w.logs[fd].wrote + w.conns[port].toUds[..n] && v.logs[fd].read == w.logs[fd].read
    && (port in v.conns ==> v.conns[port].uds == fd && v.conns[port].toUds == w.conns[port].toUds[n..])
  }

  lemma FlushMoves(w: World, port: u32, a: WriteAnswer)
    requires FlushOk(w, port, a) && Slotted(w, port)
    ensures Moves(w, Flushed(w, port, a), port, if a.result.Wrote? then a.result.n else 0)
  {
  }

  lemma SplitTwice(s: seq<byte>, n: nat, m: nat)
    requires n + m <= |s|
    ensures s[..n] + s[n..][..m] == s[..n + m] && s[n..][m..] == s[n + m..]
  {
  }

  lemma MovesOn(w: World, u: World, v: World, port: u32, n: nat, m: nat)
    requires Known(w, port) && Moves(w, u, port, n) && Known(u, port) && Moves(u, v, port, m)
    ensures Moves(w, v, port, n + m)
  {
    var fd := w.conns[port].uds;
    SplitTwice(w.conns[port].toUds, n, m);
    Joins(w.logs[fd].wrote, w.conns[port].toUds[..n], w.conns[port].toUds[n..][..m]);
  }

  lemma FlushKeepsKnown(w: World, port: u32, a: WriteAnswer)
    requires FlushOk(w, port, a) && Slotted(w, port) && Advances(a)
    ensures Known(Flushed(w, port, a), port)
  {
    var v := Flushed(w, port, a);
    forall p | p in v.conns ensures Slotted(v, p) { assert Slotted(w, p); }
    GrowsKeepsShape(w, v);
  }

  // What is left after a whole flush: nothing, unless the socket stuck.
  ghost predicate Empties(v: World, port: u32, answers: seq<WriteAnswer>)
  {
    Stuck(answers) || (port in v.conns && v.conns[port].toUds == [])
  }

  lemma StuckLater(answers: seq<WriteAnswer>)
    requires answers != [] && Stuck(answers[1..])
    ensures Stuck(answers)
  {
  }

  lemma FlushOneMore(w: World, port: u32, answers: seq<WriteAnswer>)
    requires Known(w, port) && FlushAllowed(w, port, answers) && answers != [] && Advances(answers[0])
    ensures var u := Flushed(w, port, answers[0]);
            && Known(u, port) && FlushAllowed(u, port, answers[1..]) && Moves(w, u, port, answers[0].result.n)
            && FlushAll(w, port, answers) == FlushAll(u, port, answers[1..])
            && TookIn(answers) == answers[0].result.n + TookIn(answers[1..])
  {
    FlushMoves(w, port, answers[0]);
    FlushKeepsKnown(w, port, answers[0]);
  }

  lemma FlushLast(w: World, port: u32, answers: seq<WriteAnswer>)
    requires Known(w, port) && FlushAllowed(w, port, answers) && (answers != [] ==> !Advances(answers[0]))
    ensures Moves(w, FlushAll(w, port, answers), port, TookIn(answers)) &&
            Empties(FlushAll(w, port, answers), port, answers)
  {
    if answers != [] {
      FlushMoves(w, port, answers[0]);
      assert answers[1..] == [] && TookIn(answers[1..]) == 0;
    }
  }

  lemma {:induction false} FlushAllMoves(w: World, port: u32, answers: seq<WriteAnswer>)
    requires Known(w, port) && FlushAllowed(w, port, answers)
    ensures Moves(w, FlushAll(w, port, answers), port, TookIn(answers)) &&
            Empties(FlushAll(w, port, answers), port, answers)
    decreases |answers|
  {
    if answers == [] || !Advances(answers[0]) {
      FlushLast(w, port, answers);
    } else {
      var u, rest := Flushed(w, port, answers[0]), answers[1..];
      FlushOneMore(w, port, answers);
      FlushAllMoves(u, port, rest);
      MovesOn(w, u, FlushAll(u, port, rest), port, answers[0].result.n, TookIn(rest));
      if Stuck(rest) { StuckLater(answers); }
    }
  }

  lemma FlushToUdsMoves(w: World, port: u32, answers: seq<WriteAnswer>)
    requires Known(w, port) && FlushAllowed(w, port, answers)
    ensures var v := FlushToUds(w, port, answers);
            && Moves(w, v, port, TookIn(answers))
            && (Stuck(answers) || (port in v.conns && v.conns[port].toUds == []))
  {
    FlushAllMoves(w, port, answers);
  }

  // --- pumping -----------------------------------------------------------------------------------------

  ghost predicate Reads(w: World, v: World, port: u32, bytes: seq<byte>)
    requires port in w.conns && w.conns[port].uds < |w.logs|
  {
    var fd := w.conns[port].uds;
    && |v.logs| == |w.logs| && v.logs[fd].read == w.logs[fd].read + bytes && v.logs[fd].wrote == w.logs[fd].wrote
    && (port in v.conns ==> v.conns[port].uds == fd && v.conns[port].toUds == w.conns[port].toUds)
  }

  lemma PumpReads(w: World, port: u32, r: ReadResult)
    requires PumpOk(w, port, r) && Slotted(w, port)
    ensures Reads(w, Pumped(w, port, r), port, if r.Data? then r.bytes else [])
  {
  }

  lemma ReadsOn(w: World, u: World, v: World, port: u32, a: seq<byte>, b: seq<byte>)
    requires Known(w, port) && Reads(w, u, port, a) && Known(u, port) && Reads(u, v, port, b)
    ensures Reads(w, v, port, a + b)
  {
    Joins(w.logs[w.conns[port].uds].read, a, b);
  }

  lemma PumpKeepsKnown(w: World, port: u32, r: ReadResult)
    requires PumpOk(w, port, r) && Slotted(w, port) && r.Data?
    ensures Known(Pumped(w, port, r), port)
  {
    var v := Pumped(w, port, r);
    forall p | p in v.conns ensures Slotted(v, p) { assert Slotted(w, p); }
    GrowsKeepsShape(w, v);
  }

  lemma {:induction false} PumpAllReads(w: World, port: u32, answers: seq<ReadResult>)
    requires Known(w, port) && PumpAllowed(w, port, answers)
    ensures Reads(w, PumpAll(w, port, answers), port, GaveIn(answers))
    ensures Dry(answers) || !CanPump(PumpAll(w, port, answers), port)
    decreases |answers|
  {
    if answers != [] {
      var u := Pumped(w, port, answers[0]);
      PumpReads(w, port, answers[0]);
      if answers[0].Data? {
        PumpKeepsKnown(w, port, answers[0]);
        PumpAllReads(u, port, answers[1..]);
        ReadsOn(w, u, PumpAll(u, port, answers[1..]), port, answers[0].bytes, GaveIn(answers[1..]));
      } else {
        assert answers[1..] == [] && GaveIn(answers[1..]) == [];
      }
    }
  }

  // --- every step --------------------------------------------------------------------------------------------

  // From `w` to `v` socket `fd` took `n` bytes off the front of `buffered` and gave `bytes`.
  ghost predicate Exchanges(w: World, v: World, fd: nat, buffered: seq<byte>, n: nat, bytes: seq<byte>)
  {
    && fd < |w.logs| && fd < |v.logs| && n <= |buffered|
    && v.logs[fd].wrote == w.logs[fd].wrote + buffered[..n] && v.logs[fd].read == w.logs[fd].read + bytes
  }

  // A ready socket is written to until it sticks or all is written, and read until it is dry or the guest has
  // no room.
  ghost predicate ServesAll(w: World, port: u32, pollOut: bool, pollIn: bool, a: Answer, v: World)
    requires port in w.conns
  {
    var buffered, n := w.conns[port].toUds, if pollOut then TookIn(a.writes) else 0;
    && Exchanges(w, v, w.conns[port].uds, buffered, n, if pollIn then GaveIn(a.gives) else [])
    && (pollOut ==> Stuck(a.writes) || n == |buffered|)
    && (pollIn ==> Dry(a.gives) ||
                   (port in v.conns && v.conns[port].state.Established? ==> v.conns[port].credit.Available() == 0))
  }

  lemma FlushPart(w: World, port: u32, pollOut: bool, a: Answer)
    requires Good(w, None) && port in w.conns && (pollOut ==> FlushAllowed(w, port, a.writes))
    ensures var u, n := if pollOut then FlushToUds(w, port, a.writes) else w, if pollOut then TookIn(a.writes) else 0;
            && Known(w, port) && Good(u, None) && Moves(w, u, port, n)
            && (pollOut ==> Stuck(a.writes) || n == |w.conns[port].toUds|)
  {
    assert Slotted(w, port);
    if pollOut {
      FlushToUdsMoves(w, port, a.writes);
      FlushToUdsKeepsGood(w, port, a.writes);
    }
  }

  lemma PumpPart(u: World, port: u32, pollIn: bool, a: Answer, fd: nat)
    requires Good(u, None) && fd < |u.logs| && (port in u.conns ==> u.conns[port].uds == fd)
    requires pollIn ==> PumpAllowed(u, port, a.gives)
    ensures var p, bytes := if pollIn then PumpAll(u, port, a.gives) else u, if pollIn then GaveIn(a.gives) else [];
            && |p.logs| == |u.logs| && p.logs[fd].read == u.logs[fd].read + bytes &&
                p.logs[fd].wrote == u.logs[fd].wrote
            && (pollIn ==> Dry(a.gives) || !CanPump(p, port))
  {
    if port in u.conns {
      assert Slotted(u, port);
      if pollIn { PumpAllReads(u, port, a.gives); }
    }
  }

  // Hanging up moves no bytes and leaves nothing to pump.
  lemma HangUpMovesNothing(w: World, port: u32)
    ensures HangUp(w, port).logs == w.logs && !CanPump(HangUp(w, port), port)
  {
  }

  lemma PartsMakeWhole(w: World, u: World, p: World, port: u32, n: nat, bytes: seq<byte>)
    requires Known(w, port) && Moves(w, u, port, n)
    requires var fd := w.conns[port].uds;
             |p.logs| == |u.logs| && p.logs[fd].read == u.logs[fd].read + bytes && p.logs[fd].wrote == u.logs[fd].wrote
    ensures Exchanges(w, p, w.conns[port].uds, w.conns[port].toUds, n, bytes)
  {
  }

  lemma ServeTransfers(w: World, port: u32, pollOut: bool, pollIn: bool, hangup: bool, a: Answer)
    requires Good(w, None) && ServeOk(w, port, pollOut, pollIn, a) && port in w.conns
    ensures ServesAll(w, port, pollOut, pollIn, a, Served(w, port, pollOut, pollIn, hangup, a))
  {
    var u := if pollOut then FlushToUds(w, port, a.writes) else w;
    var p := if pollIn then PumpAll(u, port, a.gives) else u;
    FlushPart(w, port, pollOut, a);
    PumpPart(u, port, pollIn, a, w.conns[port].uds);
    PartsMakeWhole(w, u, p, port, if pollOut then TookIn(a.writes) else 0, if pollIn then GaveIn(a.gives) else []);
    HangUpMovesNothing(p, port);
  }

  lemma DataIsBuffered(w: World, m: Message)
    requires Good(w, None) && m.hdr.op == OP_RW && m.hdr.dstPort in w.conns
    ensures var u, port := Received(w, m, 0), m.hdr.dstPort;
            && Good(u, None) && port in u.conns && u.conns[port].uds == w.conns[port].uds < |w.logs|
            && u.conns[port].toUds == w.conns[port].toUds + m.payload && u.logs == w.logs
  {
    var port := m.hdr.dstPort;
    ReceiveKeepsGood(w, m, 0);
    assert Slotted(w, port);
    SameAgain(w.logs, w.conns[port].uds);
  }

  lemma FlushExchanges(w: World, u: World, v: World, port: u32, n: nat)
    requires Known(u, port) && u.logs == w.logs && Moves(u, v, port, n)
    ensures Exchanges(w, v, u.conns[port].uds, u.conns[port].toUds, n, [])
  {
    var fd := u.conns[port].uds;
    assert w.logs[fd].read + [] == w.logs[fd].read;
  }

  // A flush from `u` that stands where `w` stood but for what is buffered.
  lemma FlushWithNews(w: World, u: World, port: u32, buffered: seq<byte>, a: Answer)
    requires Good(u, None) && port in u.conns && FlushAllowed(u, port, a.writes)
    requires u.logs == w.logs && u.conns[port].toUds == buffered
    ensures Exchanges(w, FlushToUds(u, port, a.writes), u.conns[port].uds, buffered, TookIn(a.writes), [])
    ensures Stuck(a.writes) || TookIn(a.writes) == |buffered|
  {
    FlushPart(u, port, true, a);
    FlushExchanges(w, u, FlushToUds(u, port, a.writes), port, TookIn(a.writes));
  }

  lemma DataIsFlushed(w: World, m: Message, a: Answer)
    requires Shaped(w) && HandleOk(w, m, a) && m.hdr.op == OP_RW && m.hdr.dstPort in w.conns
    ensures Handled(w, m, a) == FlushToUds(Received(w, m, 0), m.hdr.dstPort, a.writes)
    ensures FlushAllowed(Received(w, m, 0), m.hdr.dstPort, a.writes)
  {
  }

  // Data for a connection joins what is buffered, and is written on at once, as far as the socket takes it.
  lemma DataTransfers(w: World, m: Message, a: Answer)
    requires Good(w, None) && HandleOk(w, m, a) && m.hdr.op == OP_RW && m.hdr.dstPort in w.conns
    ensures var v, port := Handled(w, m, a), m.hdr.dstPort;
            var buffered := w.conns[port].toUds + m.payload;
            && Exchanges(w, v, w.conns[port].uds, buffered, TookIn(a.writes), [])
            && (Stuck(a.writes) || TookIn(a.writes) == |buffered|)
  {
    DataIsBuffered(w, m);
    DataIsFlushed(w, m, a);
    FlushWithNews(w, Received(w, m, 0), m.hdr.dstPort, w.conns[m.hdr.dstPort].toUds + m.payload, a);
  }

  // In every run of a fresh device, every socket event and every data message does all of this.
  lemma RunTransfers(worlds: seq<World>, inputs: seq<Input>, answers: seq<Answer>, i: nat)
    requires Runs(worlds, inputs, answers) && worlds[0] == Start(worlds[0].cid) && i < |inputs|
    ensures var w, v, a, input := worlds[i], worlds[i + 1], answers[i], inputs[i];
            && (input.SocketReady? && input.port in w.conns ==>
                  ServesAll(w, input.port, input.pollOut, input.pollIn, a, v))
            && (forall m :: m in Messages(input) && m.hdr.op == 5 && m.hdr.dstPort in w.conns ==>
                  var buffered := w.conns[m.hdr.dstPort].toUds + m.payload;
                  && Exchanges(w, v, w.conns[m.hdr.dstPort].uds, buffered, TookIn(a.writes), [])
                  && (Stuck(a.writes) || TookIn(a.writes) == |buffered|))
  {
    var w, a, input := worlds[i], answers[i], inputs[i];
    EveryRunIsGood(worlds, inputs, answers, i);
    assert StepsTo(w, input, a, worlds[i + 1]);
    match input {
      case Arrives(_, _, _) =>
        forall m | m in Messages(input) && m.hdr.op == 5 && m.hdr.dstPort in w.conns
          ensures var buffered := w.conns[m.hdr.dstPort].toUds + m.payload;
                  && Exchanges(w, worlds[i + 1], w.conns[m.hdr.dstPort].uds, buffered, TookIn(a.writes), [])
                  && (Stuck(a.writes) || TookIn(a.writes) == |buffered|)
        {
          DataTransfers(w, m, a);
        }
      case Connects(_) =>
      case SocketReady(port, pollOut, pollIn, hangup) =>
        if port in w.conns { ServeTransfers(w, port, pollOut, pollIn, hangup, a); }
    }
  }
}
