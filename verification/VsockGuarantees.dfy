// What the invariant of the reactor means for the two ends of a connection.
module VsockGuarantees {
  import opened Prelude
  import opened VsockProto
  import opened VsockWorld
  import opened VsockSteps
  import opened VsockRuns
  import Rx = RxBacklog

  const VSOCK_BACKLOG_MAX: nat := 256

  // --- both streams ----------------------------------------------------------------------------------

  // After any run of a fresh device, for every live connection: what its socket gave is what was pushed
  // for it, and the payloads addressed to it among the run's inputs are what its socket took, apart
  // from the greeting, then what is still buffered; and the guest was last told how much it took.
  lemma EveryByteIsAccountedFor(worlds: seq<World>, inputs: seq<Input>, answers: seq<Answer>, port: u32)
    requires Runs(worlds, inputs, answers) && worlds[0] == Start(worlds[0].cid) && port in worlds[|inputs|].conns
    ensures var w := worlds[|inputs|];
            && Shaped(w)
            && var fd, c := SocketOf(w, port), w.conns[port];
               var out, heard := OutgoingOf(w.pushed, w.opens[fd].pushedAt, port),
                                 IncomingOf(AllMessages(inputs), w.opens[fd].inboxAt, port);
               && out.bytes == w.logs[fd].read
               && heard.payload == w.flows[fd].written + c.toUds
               && w.logs[fd].wrote == Spliced(w.flows[fd])
               && out.advertised == |w.flows[fd].written| % TWO32
               && (heard.responded <==> w.flows[fd].greeting.Some?)
  {
    var w := worlds[|inputs|];
    EveryRunIsGood(worlds, inputs, answers, |inputs|);
    RunHears(worlds, inputs, answers, |inputs|);
    assert inputs[..|inputs|] == inputs && [] + AllMessages(inputs) == AllMessages(inputs);
    assert Slotted(w, port) && Joined(w, port);
  }

  // --- the guest's window --------------------------------------------------------------------------

  // To a guest whose reports are monotone and never above what was sent, every data packet pushed so
  // far fitted the buffer it had advertised at that moment, and the window the code computes next is
  // the true one. The account spoken of is the packets pushed and the reports received.
  lemma NoOverrun(w: World, port: u32)
    requires Good(w, None) && port in w.conns && Truthful(w.flows[SocketOf(w, port)].log)
    ensures var fd := SocketOf(w, port);
            var log := w.flows[fd].log;
            && SentSizes(log) == OutOf(w, fd).sizes && Reports(log) == HeardOf(w, fd).reports
            && (forall i :: 0 <= i < |log| && log[i].Sent? ==> Fitted(log[..i + 1]))
            && TotalSent(log) == |w.logs[fd].read|
            && w.conns[port].credit.Available() == Window(LastReport(log).0, TotalSent(log) - LastReport(log).1)
  {
    var log := w.flows[SocketOf(w, port)].log;
    assert Joined(w, port);
    CreditIsSafe(log);
    AccountIsTheEvents(log);
    forall i | 0 <= i < |log| && log[i].Sent? ensures Fitted(log[..i + 1]) { EverySendFits(log, i); }
  }

  // What is sent and not consumed fits the buffer last advertised.
  predicate Fitted(log: seq<CreditEvent>)
  {
    TotalSent(log) - LastReport(log).1 <= LastReport(log).0
  }

  // --- the host's window -----------------------------------------------------------------------------

  // The count of consumed bytes the guest had learned of when it last sent.
  function LastSeen(inbox: seq<Message>, from: nat, port: u32): nat
  {
    if |inbox| <= from then 0
    else
      var m := inbox[|inbox| - 1];
      if m.hdr.dstPort == port && m.hdr.op == OP_RW then m.seen else LastSeen(inbox[..|inbox| - 1], from, port)
  }

  // The guest sends no more than its own window, computed from the count it learned of, allows.
  predicate Behaves(inbox: seq<Message>, from: nat, port: u32)
  {
    |inbox| <= from ||
    var front, m := inbox[..|inbox| - 1], inbox[|inbox| - 1];
    var sent := |IncomingOf(front, from, port).payload|;
    && Behaves(front, from, port)
    && (m.hdr.dstPort == port && m.hdr.op == OP_RW ==>
          && LastSeen(front, from, port) <= m.seen <= sent
          && |m.payload| <= CreditTracker(HOST_BUF_ALLOC, m.seen % TWO32, sent % TWO32).Available())
  }

  lemma {:induction false} BehavedPayload(inbox: seq<Message>, from: nat, port: u32)
    requires Behaves(inbox, from, port)
    ensures |IncomingOf(inbox, from, port).payload| <= LastSeen(inbox, from, port) + HOST_BUF_ALLOC
  {
    if |inbox| > from {
      var front, m := inbox[..|inbox| - 1], inbox[|inbox| - 1];
      BehavedPayload(front, from, port);
      if m.hdr.dstPort == port && m.hdr.op == OP_RW {
        var sent := |IncomingOf(front, from, port).payload|;
        AvailableIsTheWindow(CreditTracker(HOST_BUF_ALLOC, m.seen % TWO32, sent % TWO32), sent, m.seen);
      }
    }
  }

  // The host buffers no more than it advertised for a guest that kept within its window and knows of no
  // byte that was not consumed. `VsockWindow` shows over whole runs what a guest can know.
  lemma WithinBuffer(w: World, port: u32)
    requires Good(w, None) && port in w.conns
    requires Behaves(w.inbox, w.opens[SocketOf(w, port)].inboxAt, port)
    requires LastSeen(w.inbox, w.opens[SocketOf(w, port)].inboxAt, port) <= |w.flows[SocketOf(w, port)].written|
    ensures |w.conns[port].toUds| <= HOST_BUF_ALLOC
  {
    var fd := SocketOf(w, port);
    assert Slotted(w, port) && Joined(w, port);
    BehavedPayload(w.inbox, w.opens[fd].inboxAt, port);
    assert |HeardOf(w, fd).payload| == |w.flows[fd].written| + |w.conns[port].toUds|;
  }

  // --- through the backlog ------------------------------------------------------------------------------

  // The stream bytes a packet carries for a port.
  function Carries(port: u32): Packet -> seq<byte>
  {
    (pkt: Packet) => if pkt.hdr.srcPort == port && pkt.hdr.op == OP_RW then pkt.data else []
  }

  lemma {:induction false} OutIsStream(pushed: seq<Packet>, from: nat, port: u32)
    requires from <= |pushed|
    ensures OutgoingOf(pushed, from, port).bytes == Rx.Stream(Carries(port), pushed[from..])
  {
    if |pushed| > from {
      var n := |pushed| - 1;
      OutIsStream(pushed[..n], from, port);
      assert pushed[from..][..n - from] == pushed[..n][from..] && pushed[from..][n - from] == pushed[n];
    }
  }

  // The guest's stream: what is delivered or waiting carries the bytes read from the socket, after
  // those of earlier connections of the port, exactly when the backlog dropped none of them.
  lemma StreamReachesGuest(w: World, port: u32, trace: seq<Rx.Event<Packet>>)
    requires Good(w, None) && port in w.conns && Rx.Items(trace) == w.pushed
    ensures var fd := SocketOf(w, port);
            var before := Rx.Stream(Carries(port), w.pushed[..w.opens[fd].pushedAt]);
            Rx.Stream(Carries(port), Rx.Kept(Rx.Run(VSOCK_BACKLOG_MAX, trace))) == before + w.logs[fd].read <==>
            Rx.Stream(Carries(port), Rx.Dropped(VSOCK_BACKLOG_MAX, trace)) == []
  {
    var fd := SocketOf(w, port);
    var from := w.opens[fd].pushedAt;
    ReadIsPushed(w, port);
    WholeStream(w.pushed, from, port);
    Rx.StreamSurvives(Carries(port), VSOCK_BACKLOG_MAX, trace);
  }

  lemma ReadIsPushed(w: World, port: u32)
    requires Good(w, None) && port in w.conns
    ensures var fd := SocketOf(w, port);
            && w.opens[fd].pushedAt <= |w.pushed|
            && OutgoingOf(w.pushed, w.opens[fd].pushedAt, port).bytes == w.logs[fd].read
  {
    var fd := SocketOf(w, port);
    assert Slotted(w, port) && Joined(w, port) && Placed(w, w.opens[fd]);
  }

  lemma WholeStream(pushed: seq<Packet>, from: nat, port: u32)
    requires from <= |pushed|
    ensures Rx.Stream(Carries(port), pushed) ==
            Rx.Stream(Carries(port), pushed[..from]) + OutgoingOf(pushed, from, port).bytes
  {
    var a, b := pushed[..from], pushed[from..];
    assert pushed == a + b;
    Rx.StreamConcat(Carries(port), a, b);
    OutIsStream(pushed, from, port);
  }
}
