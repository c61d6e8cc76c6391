// The host's receive window over whole runs: what a guest may know of the bytes consumed comes from the
// counts in packets it was sent, so one that keeps to its window never overfills the host's buffer.
module VsockWindow {
  import opened Prelude
  import opened VsockProto
  import opened VsockWorld
  import opened VsockSteps
  import opened VsockRuns
  import opened VsockForward
  import opened VsockPackets
  import opened VsockGuarantees

  // --- what a guest can know ---------------------------------------------------------------------------

  // The packets the guest got are some of those pushed since the connection was opened, in order.
  predicate Delivered(got: seq<Packet>, pushed: seq<Packet>, from: nat)
  {
    if |pushed| <= from then got == []
    else
      var front, last := pushed[..|pushed| - 1], pushed[|pushed| - 1];
      || Delivered(got, front, from)
      || (got != [] && got[|got| - 1] == last && Delivered(got[..|got| - 1], front, from))
  }

  // The number of bytes consumed that their counts tell, packet by packet.
  function Learned(got: seq<Packet>, port: u32): nat
  {
    if got == [] then 0
    else
      var known, pkt := Learned(got[..|got| - 1], port), got[|got| - 1];
      if pkt.hdr.srcPort != port || pkt.hdr.op == OP_RST then known else Unwrapped(known, pkt.hdr.fwdCnt)
  }

  lemma UnwrapsInOrder(a: nat, b: nat, low: u32)
    requires a <= b
    ensures b <= Unwrapped(b, low) && Unwrapped(a, low) <= Unwrapped(b, low)
  {
    var x, y := Unwrapped(a, low), Unwrapped(b, low);
    assert x % TWO32 == low && y % TWO32 == low && x < a + TWO32;
  }

  // Missing packets, a guest learns no more than all of them tell.
  lemma {:induction false} LearnsNoMore(got: seq<Packet>, pushed: seq<Packet>, from: nat, port: u32)
    requires Delivered(got, pushed, from)
    ensures Learned(got, port) <= OutgoingOf(pushed, from, port).learned
  {
    if |pushed| > from {
      var front, last := pushed[..|pushed| - 1], pushed[|pushed| - 1];
      if Delivered(got, front, from) {
        LearnsNoMore(got, front, from, port);
        UnwrapsInOrder(OutgoingOf(front, from, port).learned, OutgoingOf(front, from, port).learned, last.hdr.fwdCnt);
      } else {
        LearnsNoMore(got[..|got| - 1], front, from, port);
        UnwrapsInOrder(Learned(got[..|got| - 1], port), OutgoingOf(front, from, port).learned, last.hdr.fwdCnt);
      }
    }
  }

  // The buffer the last of them advertises; a guest that got none knows of no room.
  function Advertised(got: seq<Packet>, port: u32): u32
  {
    if got == [] then 0
    else
      var pkt := got[|got| - 1];
      if pkt.hdr.srcPort != port || pkt.hdr.op == OP_RST then Advertised(got[..|got| - 1], port) else pkt.hdr.bufAlloc
  }

  ghost predicate Advertises(pushed: seq<Packet>, from: nat, port: u32)
  {
    forall j :: from <= j < |pushed| && pushed[j].hdr.srcPort == port && pushed[j].hdr.op != OP_RST ==>
                pushed[j].hdr.bufAlloc == HOST_BUF_ALLOC
  }

  lemma {:induction false} AdvertisedIsTheBuffer(got: seq<Packet>, pushed: seq<Packet>, from: nat, port: u32)
    requires Delivered(got, pushed, from) && Advertises(pushed, from, port)
    ensures Advertised(got, port) == 0 || Advertised(got, port) == HOST_BUF_ALLOC
  {
    if |pushed| > from {
      var front := pushed[..|pushed| - 1];
      assert Advertises(front, from, port);
      if Delivered(got, front, from) {
        AdvertisedIsTheBuffer(got, front, from, port);
      } else {
        AdvertisedIsTheBuffer(got[..|got| - 1], front, from, port);
      }
    }
  }

  // --- the host's buffer ------------------------------------------------------------------------------------

  // A guest sending on a connection goes by the counts and the buffer size in packets it got, forgets no
  // count, and stays within the window they leave it.
  ghost predicate Careful(w: World, fd: nat, m: Message)
    requires fd < |w.opens|
  {
    var o, sent := w.opens[fd], |HeardOf(w, fd).payload|;
    && LastSeen(w.inbox, o.inboxAt, o.port) <= m.seen
    && exists got :: Delivered(got, w.pushed, o.pushedAt) && GoesBy(m, sent, got, o.port)
  }

  predicate GoesBy(m: Message, sent: nat, got: seq<Packet>, port: u32)
  {
    && m.seen == Learned(got, port)
    && |m.payload| <= CreditTracker(Advertised(got, port), m.seen % TWO32, sent % TWO32).Available()
  }

  predicate SendsOn(w: World, fd: nat, m: Message)
    requires fd < |w.opens|
  {
    m.hdr.dstPort == w.opens[fd].port && m.hdr.op == OP_RW
  }

  ghost predicate CarefulStep(w: World, input: Input, fd: nat)
  {
    fd < |w.opens| ==> forall m :: m in Messages(input) && SendsOn(w, fd, m) ==> Careful(w, fd, m)
  }

  ghost predicate CarefulRun(worlds: seq<World>, inputs: seq<Input>, fd: nat)
    requires |inputs| < |worlds|
  {
    forall i :: 0 <= i < |inputs| ==> CarefulStep(worlds[i], inputs[i], fd)
  }

  // The guest has kept within its window, and knows of no byte that was not consumed.
  predicate KeepsWithin(w: World, fd: nat)
    requires fd < |w.opens| <= |w.flows|
  {
    && Behaves(w.inbox, w.opens[fd].inboxAt, w.opens[fd].port)
    && LastSeen(w.inbox, w.opens[fd].inboxAt, w.opens[fd].port) <= |w.flows[fd].written|
  }

  lemma SeenIsConsumed(w: World, fd: nat, m: Message)
    requires Good(w, None) && fd < |w.opens| && Live(w, fd) && SpeaksFor(w, fd, w.cid) && Careful(w, fd, m)
    ensures m.seen <= |w.flows[fd].written| <= |HeardOf(w, fd).payload|
    ensures |m.payload| <=
            CreditTracker(HOST_BUF_ALLOC, m.seen % TWO32, |HeardOf(w, fd).payload| % TWO32).Available()
  {
    var o, sent := w.opens[fd], |HeardOf(w, fd).payload|;
    var got :| Delivered(got, w.pushed, o.pushedAt) && GoesBy(m, sent, got, o.port);
    LearnsNoMore(got, w.pushed, o.pushedAt, o.port);
    assert Advertises(w.pushed, o.pushedAt, o.port);
    AdvertisedIsTheBuffer(got, w.pushed, o.pushedAt, o.port);
    assert Joined(w, o.port);
  }

  lemma HeardOneMore(inbox: seq<Message>, m: Message, from: nat, port: u32)
    requires from <= |inbox| && Behaves(inbox, from, port)
    requires m.hdr.dstPort == port && m.hdr.op == OP_RW ==>
               var sent := |IncomingOf(inbox, from, port).payload|;
               && LastSeen(inbox, from, port) <= m.seen <= sent
               && |m.payload| <= CreditTracker(HOST_BUF_ALLOC, m.seen % TWO32, sent % TWO32).Available()
    ensures Behaves(inbox + [m], from, port)
    ensures LastSeen(inbox + [m], from, port) ==
            if m.hdr.dstPort == port && m.hdr.op == OP_RW then m.seen else LastSeen(inbox, from, port)
  {
    assert (inbox + [m])[..|inbox|] == inbox;
  }

  lemma StepKeepsWithin(w: World, v: World, input: Input, fd: nat)
    requires Good(w, None) && fd < |w.opens| && Live(w, fd) && KeepsWithin(w, fd) && CarefulStep(w, input, fd)
    requires SpeaksFor(w, fd, w.cid)
    requires Forward(w, v) && v.inbox == w.inbox + Messages(input)
    ensures KeepsWithin(v, fd)
  {
    var o := w.opens[fd];
    assert Placed(w, o);
    if Messages(input) == [] {
      assert v.inbox == w.inbox;
    } else {
      var m := Messages(input)[0];
      if SendsOn(w, fd, m) { SeenIsConsumed(w, fd, m); }
      HeardOneMore(w.inbox, m, o.inboxAt, o.port);
    }
  }

  // A connection that is live after a step either was, and has kept within, or has just been opened.
  lemma LiveAfter(w: World, v: World, input: Input, fd: nat)
    requires Good(w, None) && Shaped(v) && Forward(w, v) && v.inbox == w.inbox + Messages(input)
    requires fd < |v.opens| && Live(v, fd) && CarefulStep(w, input, fd)
    requires fd < |w.opens| && Live(w, fd) ==> KeepsWithin(w, fd) && SpeaksFor(w, fd, w.cid)
    ensures KeepsWithin(v, fd)
  {
    if fd < |w.opens| {
      assert Live(w, fd);
      StepKeepsWithin(w, v, input, fd);
    }
  }

  // The invariant of the reactor, and for one connection what it was sent and that its guest has kept within
  // the window.
  ghost predicate Watched(w: World, fd: nat)
  {
    Good(w, None) && (fd < |w.opens| && Live(w, fd) ==> KeepsWithin(w, fd) && SpeaksFor(w, fd, w.cid))
  }

  lemma StepStaysWatched(w: World, input: Input, a: Answer, v: World, fd: nat)
    requires Watched(w, fd) && StepsTo(w, input, a, v) && CarefulStep(w, input, fd)
    ensures Watched(v, fd)
  {
    StepKeepsGood(w, input, a);
    StepForward(w, input, a);
    StepHears(w, input, a);
    StepSays(w, input, a);
    if fd < |v.opens| && Live(v, fd) {
      LiveAfter(w, v, input, fd);
      StepStaysFaithful(w, input, v, fd);
    }
  }

  lemma {:induction false} RunStaysWatched(worlds: seq<World>, inputs: seq<Input>, answers: seq<Answer>, fd: nat,
                                           n: nat)
    requires Runs(worlds, inputs, answers) && Watched(worlds[0], fd) && n <= |inputs|
    requires CarefulRun(worlds, inputs, fd)
    ensures Watched(worlds[n], fd)
  {
    if n > 0 {
      RunStaysWatched(worlds, inputs, answers, fd, n - 1);
      assert StepsTo(worlds[n - 1], inputs[n - 1], answers[n - 1], worlds[n]);
      StepStaysWatched(worlds[n - 1], inputs[n - 1], answers[n - 1], worlds[n], fd);
    }
  }

  // After any run of a fresh device the host buffers for a connection at most 256 KiB, if the guest sends on
  // it carefully: nothing is supposed of what the guest was told, neither of the count nor of the room, only
  // that it got it from the packets pushed.
  lemma BufferIsBounded(worlds: seq<World>, inputs: seq<Input>, answers: seq<Answer>, port: u32)
    requires Runs(worlds, inputs, answers) && worlds[0] == Start(worlds[0].cid) && port in worlds[|inputs|].conns
    requires CarefulRun(worlds, inputs, worlds[|inputs|].conns[port].uds)
    ensures |worlds[|inputs|].conns[port].toUds| <= 256 * 1024
  {
    var w := worlds[|inputs|];
    RunStaysWatched(worlds, inputs, answers, w.conns[port].uds, |inputs|);
    assert Slotted(w, port);
    WithinBuffer(w, port);
  }
}
