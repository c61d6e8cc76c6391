// The virtio-vsock wire header and the sender's credit account, section 5.10 of VIRTIO 1.1.
module VsockProto {
  import opened Prelude
  import opened LittleEndian

  type u16 = x: int | 0 <= x < 0x1_0000

  const HEADER_LEN: nat := 44
  const TYPE_STREAM: u16 := 1
  const HOST_CID: u64 := 2

  const OP_REQUEST: u16 := 1
  const OP_RESPONSE: u16 := 2
  const OP_RST: u16 := 3
  const OP_SHUTDOWN: u16 := 4
  const OP_RW: u16 := 5
  const OP_CREDIT_UPDATE: u16 := 6
  const OP_CREDIT_REQUEST: u16 := 7

  datatype Header = Header(
    srcCid: u64, dstCid: u64, srcPort: u32, dstPort: u32, len: u32,
    kind: u16, op: u16, flags: u32, bufAlloc: u32, fwdCnt: u32)

  // --- the header ----------------------------------------------------------------------

  function At16(b: seq<byte>, o: nat): u16
    requires o + 2 <= |b|
  {
    ToFromLe(b[o..o + 2]); Widths();
    FromLe(b[o..o + 2])
  }

  function At32(b: seq<byte>, o: nat): u32
    requires o + 4 <= |b|
  {
    ToFromLe(b[o..o + 4]); Widths();
    FromLe(b[o..o + 4])
  }

  function At64(b: seq<byte>, o: nat): u64
    requires o + 8 <= |b|
  {
    ToFromLe(b[o..o + 8]); Widths();
    FromLe(b[o..o + 8])
  }

  function Parse(b: seq<byte>): Option<Header>
  {
    if |b| < HEADER_LEN then None
    else Some(Header(At64(b, 0), At64(b, 8), At32(b, 16), At32(b, 20), At32(b, 24),
                     At16(b, 28), At16(b, 30), At32(b, 32), At32(b, 36), At32(b, 40)))
  }

  function ToBytes(h: Header): (b: seq<byte>)
    ensures |b| == HEADER_LEN
  {
    ToLe(h.srcCid, W64) + ToLe(h.dstCid, W64) + ToLe(h.srcPort, W32) + ToLe(h.dstPort, W32) + ToLe(h.len, W32)
    + ToLe(h.kind, W16) + ToLe(h.op, W16) + ToLe(h.flags, W32) + ToLe(h.bufAlloc, W32) + ToLe(h.fwdCnt, W32)
  }

  lemma Slices(a: seq<byte>, b: seq<byte>, c: seq<byte>, d: seq<byte>, e: seq<byte>,
               f: seq<byte>, g: seq<byte>, h: seq<byte>, i: seq<byte>, j: seq<byte>, rest: seq<byte>)
    requires |a| == |b| == 8 && |c| == |d| == |e| == |h| == |i| == |j| == 4 && |f| == |g| == 2
    ensures var s := a + b + c + d + e + f + g + h + i + j + rest;
            && s[0..8] == a && s[8..16] == b && s[16..20] == c && s[20..24] == d && s[24..28] == e
            && s[28..30] == f && s[30..32] == g && s[32..36] == h && s[36..40] == i && s[40..44] == j
  {
  }

  lemma Fields(h: Header)
    ensures FromLe(ToLe(h.srcCid, W64)) == h.srcCid && FromLe(ToLe(h.dstCid, W64)) == h.dstCid
    ensures FromLe(ToLe(h.srcPort, W32)) == h.srcPort && FromLe(ToLe(h.dstPort, W32)) == h.dstPort &&
            FromLe(ToLe(h.len, W32)) == h.len
    ensures FromLe(ToLe(h.kind, W16)) == h.kind && FromLe(ToLe(h.op, W16)) == h.op
    ensures FromLe(ToLe(h.flags, W32)) == h.flags && FromLe(ToLe(h.bufAlloc, W32)) == h.bufAlloc &&
            FromLe(ToLe(h.fwdCnt, W32)) == h.fwdCnt
  {
    Widths();
    FromToLe(h.srcCid, W64); FromToLe(h.dstCid, W64);
    FromToLe(h.srcPort, W32); FromToLe(h.dstPort, W32); FromToLe(h.len, W32);
    FromToLe(h.kind, W16); FromToLe(h.op, W16);
    FromToLe(h.flags, W32); FromToLe(h.bufAlloc, W32); FromToLe(h.fwdCnt, W32);
  }

  // Parsing reads back what was written, whatever payload follows.
  lemma HeaderRoundTrip(h: Header, payload: seq<byte>)
    ensures Parse(ToBytes(h) + payload) == Some(h)
  {
    Slices(ToLe(h.srcCid, W64), ToLe(h.dstCid, W64), ToLe(h.srcPort, W32), ToLe(h.dstPort, W32), ToLe(h.len, W32),
           ToLe(h.kind, W16), ToLe(h.op, W16), ToLe(h.flags, W32), ToLe(h.bufAlloc, W32), ToLe(h.fwdCnt, W32), payload);
    Fields(h);
  }

  // Where each field lies, as in section 5.10.6 of VIRTIO 1.1.
  lemma HeaderLayout(h: Header)
    ensures var b := ToBytes(h);
            && FromLe(b[0..8]) == h.srcCid && FromLe(b[8..16]) == h.dstCid
            && FromLe(b[16..20]) == h.srcPort && FromLe(b[20..24]) == h.dstPort && FromLe(b[24..28]) == h.len
            && FromLe(b[28..30]) == h.kind && FromLe(b[30..32]) == h.op
            && FromLe(b[32..36]) == h.flags && FromLe(b[36..40]) == h.bufAlloc && FromLe(b[40..44]) == h.fwdCnt
  {
    Slices(ToLe(h.srcCid, W64), ToLe(h.dstCid, W64), ToLe(h.srcPort, W32), ToLe(h.dstPort, W32), ToLe(h.len, W32),
           ToLe(h.kind, W16), ToLe(h.op, W16), ToLe(h.flags, W32), ToLe(h.bufAlloc, W32), ToLe(h.fwdCnt, W32), []);
    assert ToBytes(h) + [] == ToBytes(h);
    Fields(h);
  }

  lemma Bytes16(b: seq<byte>, o: nat)
    requires o + 2 <= |b|
    ensures ToLe(At16(b, o), W16) == b[o..o + 2]
  {
    ToFromLe(b[o..o + 2]);
  }

  lemma Bytes32(b: seq<byte>, o: nat)
    requires o + 4 <= |b|
    ensures ToLe(At32(b, o), W32) == b[o..o + 4]
  {
    ToFromLe(b[o..o + 4]);
  }

  lemma Bytes64(b: seq<byte>, o: nat)
    requires o + 8 <= |b|
    ensures ToLe(At64(b, o), W64) == b[o..o + 8]
  {
    ToFromLe(b[o..o + 8]);
  }

  lemma Assemble(h: Header, a: seq<byte>, b: seq<byte>, c: seq<byte>, d: seq<byte>, e: seq<byte>,
                 f: seq<byte>, g: seq<byte>, i: seq<byte>, j: seq<byte>, k: seq<byte>)
    requires ToLe(h.srcCid, W64) == a && ToLe(h.dstCid, W64) == b
    requires ToLe(h.srcPort, W32) == c && ToLe(h.dstPort, W32) == d && ToLe(h.len, W32) == e
    requires ToLe(h.kind, W16) == f && ToLe(h.op, W16) == g
    requires ToLe(h.flags, W32) == i && ToLe(h.bufAlloc, W32) == j && ToLe(h.fwdCnt, W32) == k
    ensures ToBytes(h) == a + b + c + d + e + f + g + i + j + k
  {
  }

  lemma Cover(b: seq<byte>)
    requires |b| >= 44
    ensures b[0..8] + b[8..16] + b[16..20] + b[20..24] + b[24..28] + b[28..30] + b[30..32] + b[32..36] + b[36..40] +
            b[40..44]
            == b[..44]
  {
  }

  // Every 44-byte prefix is the wire form of the header parsed from it: the fields cover the bytes.
  lemma ParseToBytes(b: seq<byte>)
    requires |b| >= HEADER_LEN
    ensures ToBytes(Parse(b).value) == b[..HEADER_LEN]
  {
    var h := Parse(b).value;
    Bytes64(b, 0); Bytes64(b, 8);
    Bytes32(b, 16); Bytes32(b, 20); Bytes32(b, 24);
    Bytes16(b, 28); Bytes16(b, 30);
    Bytes32(b, 32); Bytes32(b, 36); Bytes32(b, 40);
    Assemble(h, b[0..8], b[8..16], b[16..20], b[20..24], b[24..28], b[28..30], b[30..32], b[32..36], b[36..40],
             b[40..44]);
    Cover(b);
  }

  // --- credit -----------------------------------------------------------------------------

  datatype CreditTracker = CreditTracker(peerBufAlloc: u32, peerFwdCnt: u32, txCnt: u32)
  {
    function UpdatePeer(bufAlloc: u32, fwdCnt: u32): CreditTracker
    {
      this.(peerBufAlloc := bufAlloc, peerFwdCnt := fwdCnt)
    }

    function RecordSent(n: u32): CreditTracker
    {
      this.(txCnt := (txCnt + n) % TWO32)
    }

    function Available(): u32
    {
      var inFlight := (txCnt - peerFwdCnt) % TWO32;
      if peerBufAlloc <= inFlight then 0 else peerBufAlloc - inFlight
    }
  }

  const NO_CREDIT := CreditTracker(0, 0, 0)

  // The counters are the low words of true totals: `sent` bytes sent, `consumed` of them consumed.
  ghost predicate Tracks(t: CreditTracker, sent: nat, consumed: nat)
  {
    && t.txCnt == sent % TWO32 && t.peerFwdCnt == consumed % TWO32
    && consumed <= sent < consumed + TWO32
  }

  // Under wrap-around the computed window is the true one.
  lemma AvailableIsTheWindow(t: CreditTracker, sent: nat, consumed: nat)
    requires Tracks(t, sent, consumed)
    ensures t.Available() == if t.peerBufAlloc <= sent - consumed then 0 else t.peerBufAlloc - (sent - consumed)
  {
    ModDifference(sent, consumed);
  }

  lemma ModDifference(a: nat, b: nat)
    requires b <= a < b + TWO32
    ensures (a % TWO32 - b % TWO32) % TWO32 == a - b
  {
    var d := a - b;
    assert a % TWO32 == (b % TWO32 + d) % TWO32;
  }

  // A send within the window leaves at most the advertised buffer outstanding, and stays tracked.
  lemma SendKeepsTrack(t: CreditTracker, sent: nat, consumed: nat, n: nat)
    requires Tracks(t, sent, consumed) && n <= t.Available()
    ensures Tracks(t.RecordSent(n), sent + n, consumed)
    ensures n > 0 ==> sent + n - consumed <= t.peerBufAlloc
  {
    AvailableIsTheWindow(t, sent, consumed);
    ModSum(sent, n);
  }

  lemma ModSum(a: nat, n: nat)
    ensures (a % TWO32 + n) % TWO32 == (a + n) % TWO32
  {
  }

  // A report of a later consumption, never above what was sent, keeps the account exact.
  lemma ReportKeepsTrack(t: CreditTracker, sent: nat, consumed: nat, bufAlloc: u32, later: nat)
    requires Tracks(t, sent, consumed) && consumed <= later <= sent
    ensures Tracks(t.UpdatePeer(bufAlloc, later % TWO32), sent, later)
  {
  }

  // --- whole runs of one sender -------------------------------------------------------------

  datatype CreditEvent = Report(bufAlloc: u32, consumed: nat) | Sent(n: u32)

  datatype Account = Account(tracker: CreditTracker, sent: nat, consumed: nat)

  function Accounted(a: Account, e: CreditEvent): Account
  {
    match e
    case Report(bufAlloc, consumed) => Account(a.tracker.UpdatePeer(bufAlloc, consumed % TWO32), a.sent, consumed)
    case Sent(n) => Account(a.tracker.RecordSent(n), a.sent + n, a.consumed)
  }

  function After(events: seq<CreditEvent>): Account
  {
    if events == [] then Account(NO_CREDIT, 0, 0) else Accounted(After(events[..|events| - 1]), events[|events| - 1])
  }

  // The sender never sends more than `Available` allows.
  predicate Obedient(events: seq<CreditEvent>)
  {
    events == [] ||
    var front, last := events[..|events| - 1], events[|events| - 1];
    Obedient(front) && (last.Sent? ==> 0 < last.n <= After(front).tracker.Available())
  }

  // The peer's reports are monotone and never above what was sent.
  predicate Truthful(events: seq<CreditEvent>)
  {
    events == [] ||
    var front, last := events[..|events| - 1], events[|events| - 1];
    Truthful(front) && (last.Report? ==> After(front).consumed <= last.consumed <= After(front).sent)
  }

  // What the events say by themselves: bytes sent, and the last report.
  function TotalSent(events: seq<CreditEvent>): nat
  {
    if events == [] then 0
    else TotalSent(events[..|events| - 1]) + (if events[|events| - 1].Sent? then events[|events| - 1].n else 0)
  }

  function LastReport(events: seq<CreditEvent>): (r: (u32, nat))
  {
    if events == [] then (0, 0)
    else
      match events[|events| - 1]
      case Report(bufAlloc, consumed) => (bufAlloc, consumed)
      case Sent(_) => LastReport(events[..|events| - 1])
  }

  lemma {:induction false} AccountIsTheEvents(events: seq<CreditEvent>)
    ensures After(events).sent == TotalSent(events) && After(events).consumed == LastReport(events).1
    ensures After(events).tracker.peerBufAlloc == LastReport(events).0
  {
    if events != [] { AccountIsTheEvents(events[..|events| - 1]); }
  }

  lemma EventKeepsTrack(a: Account, e: CreditEvent)
    requires Tracks(a.tracker, a.sent, a.consumed)
    requires if e.Sent? then 0 < e.n <= a.tracker.Available() else a.consumed <= e.consumed <= a.sent
    ensures var b := Accounted(a, e);
            Tracks(b.tracker, b.sent, b.consumed) && (e.Sent? ==> b.sent - b.consumed <= b.tracker.peerBufAlloc)
  {
    match e {
      case Report(bufAlloc, consumed) => ReportKeepsTrack(a.tracker, a.sent, a.consumed, bufAlloc, consumed);
      case Sent(n) => SendKeepsTrack(a.tracker, a.sent, a.consumed, n);
    }
  }

  function Window(bufAlloc: nat, outstanding: int): nat
  {
    if bufAlloc <= outstanding then 0 else if outstanding < 0 then bufAlloc else bufAlloc - outstanding
  }

  // Over any number of wraps: the window is exact in every reachable state, and no send leaves more
  // unconsumed bytes than the peer last said it had room for.
  lemma {:induction false} CreditIsSafe(events: seq<CreditEvent>)
    requires Obedient(events) && Truthful(events)
    ensures var a := After(events);
            && Tracks(a.tracker, a.sent, a.consumed)
            && a.tracker.Available() == Window(a.tracker.peerBufAlloc, a.sent - a.consumed)
            && (events != [] && events[|events| - 1].Sent? ==> a.sent - a.consumed <= a.tracker.peerBufAlloc)
  {
    if events != [] {
      var front := events[..|events| - 1];
      CreditIsSafe(front);
      EventKeepsTrack(After(front), events[|events| - 1]);
    }
    AvailableIsTheWindow(After(events).tracker, After(events).sent, After(events).consumed);
  }

  lemma {:induction false} PrefixIsFair(events: seq<CreditEvent>, n: nat)
    requires Obedient(events) && Truthful(events) && n <= |events|
    ensures Obedient(events[..n]) && Truthful(events[..n])
    decreases |events|
  {
    if n == |events| {
      assert events[..n] == events;
    } else {
      var front := events[..|events| - 1];
      PrefixIsFair(front, n);
      assert front[..n] == events[..n];
    }
  }

  // Every send of a run, not just the last.
  lemma EverySendFits(events: seq<CreditEvent>, i: nat)
    requires Obedient(events) && Truthful(events) && i < |events| && events[i].Sent?
    ensures TotalSent(events[..i + 1]) - LastReport(events[..i + 1]).1 <= LastReport(events[..i + 1]).0
  {
    PrefixIsFair(events, i + 1);
    AccountIsTheEvents(events[..i + 1]);
    CreditIsSafe(events[..i + 1]);
  }
}
