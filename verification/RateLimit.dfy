// The token-bucket limiter of the block and net devices, with saturating 64-bit arithmetic and a
// clock that is read in nanoseconds and credited in whole milliseconds.
module RateLimit {
  import opened Prelude

  const NANOS_PER_MS: nat := 1_000_000

  function SaturatingMul(a: u64, b: u64): u64 { Min(a * b, TWO64 - 1) }

  function SaturatingAdd(a: u64, b: u64): u64 { Min(a + b, TWO64 - 1) }

  // --- one bucket ------------------------------------------------------------

  class TokenBucket {
    const capacity: u64
    const refillPerMs: u64
    var tokens: u64

    ghost predicate Valid()
      reads this
    {
      tokens <= capacity
    }

    constructor (capacity: u64, refillPerMs: u64)
      ensures Valid() && this.capacity == capacity && this.refillPerMs == refillPerMs && tokens == capacity
    {
      this.capacity, this.refillPerMs, tokens := capacity, refillPerMs, capacity;
    }

    // Saturation never shows: the bucket holds min(tokens + ms * rate, capacity).
    method Refill(ms: u64)
      requires Valid()
      modifies this`tokens
      ensures Valid() && tokens == Refilled(capacity, refillPerMs, old(tokens), ms)
    {
      var added := SaturatingMul(ms, refillPerMs);
      tokens := Min(SaturatingAdd(tokens, added), capacity);
    }

    method Consume(n: u64) returns (ok: bool)
      requires Valid()
      modifies this`tokens
      ensures Valid() && (ok <==> n <= old(tokens))
      ensures tokens == if ok then old(tokens) - n else old(tokens)
    {
      if tokens >= n {
        tokens := tokens - n;
        return true;
      }
      return false;
    }
  }

  function Refilled(capacity: nat, rate: nat, tokens: nat, ms: nat): nat
  {
    Min(tokens + ms * rate, capacity)
  }

  // --- the two-dimensional gate, as values -------------------------------------

  datatype Config = Config(opsCapacity: u64, opsRate: u64, bytesCapacity: u64, bytesRate: u64)

  // Tokens in both buckets and the instant of the last credited refill.
  datatype Gate = Gate(ops: nat, bytes: nat, last: nat)

  // Whole milliseconds since `last`; a clock that went backwards counts as none.
  function ElapsedMs(last: nat, now: nat): u64
  {
    if now <= last then 0 else (now - last) / NANOS_PER_MS % TWO64
  }

  function Credited(c: Config, g: Gate, now: nat): Gate
  {
    var ms := ElapsedMs(g.last, now);
    if ms == 0 then g
    else Gate(Refilled(c.opsCapacity, c.opsRate, g.ops, ms), Refilled(c.bytesCapacity, c.bytesRate, g.bytes, ms), now)
  }

  datatype Need = Need(ops: nat, bytes: nat)

  // A request larger than a bucket is clamped to it.
  function Clamped(c: Config, need: Need): Need
  {
    Need(Min(need.ops, c.opsCapacity), Min(need.bytes, c.bytesCapacity))
  }

  predicate Fits(need: Need, g: Gate) { need.ops <= g.ops && need.bytes <= g.bytes }

  // What one call does: the tokens it takes, after crediting the elapsed time.
  datatype Call =
    | TryAdmit(now: nat, need: Need)
    | GiveUp(need: Need)   // the deadline passed: charge what there is

  function Charge(c: Config, g: Gate, call: Call): Need
  {
    match call
    case TryAdmit(now, need) => if Fits(Clamped(c, need), Credited(c, g, now)) then Clamped(c, need) else Need(0, 0)
    case GiveUp(need) => Need(Min(Clamped(c, need).ops, g.ops), Min(Clamped(c, need).bytes, g.bytes))
  }

  function After(c: Config, g: Gate, call: Call): Gate
  {
    var credited := if call.TryAdmit? then Credited(c, g, call.now) else g;
    var charge := Charge(c, g, call);
    credited.(ops := credited.ops - charge.ops, bytes := credited.bytes - charge.bytes)
  }

  function Run(c: Config, g: Gate, calls: seq<Call>): Gate
  {
    if calls == [] then g else After(c, Run(c, g, calls[..|calls| - 1]), calls[|calls| - 1])
  }

  function Full(c: Config, born: nat): Gate { Gate(c.opsCapacity, c.bytesCapacity, born) }

  // --- what a call does, by the meter ------------------------------------------------

  // Read off both buckets before and after a call. A call first refills for the whole milliseconds since the
  // last one that did; it is admitted exactly if both buckets then hold the request, clamped to their size,
  // and takes just that, else it takes nothing. Giving up takes what is there, up to the clamped request.
  predicate Metered(c: Config, g: Gate, call: Call, admitted: bool, h: Gate)
  {
    var ops, bytes := Min(call.need.ops, c.opsCapacity), Min(call.need.bytes, c.bytesCapacity);
    match call
    case TryAdmit(now, _) =>
      var ms := if now <= g.last then 0 else (now - g.last) / 1_000_000 % 0x1_0000_0000_0000_0000;
      var opsLevel := if ms == 0 then g.ops else Min(g.ops + ms * c.opsRate, c.opsCapacity);
      var bytesLevel := if ms == 0 then g.bytes else Min(g.bytes + ms * c.bytesRate, c.bytesCapacity);
      && (admitted <==> ops <= opsLevel && bytes <= bytesLevel)
      && h.ops == (if admitted then opsLevel - ops else opsLevel)
      && h.bytes == (if admitted then bytesLevel - bytes else bytesLevel)
      && h.last == (if ms == 0 then g.last else now)
    case GiveUp(_) =>
      !admitted && h.ops == g.ops - Min(ops, g.ops) && h.bytes == g.bytes - Min(bytes, g.bytes) && h.last == g.last
  }

  predicate Admits(c: Config, g: Gate, call: Call)
  {
    call.TryAdmit? && Fits(Clamped(c, call.need), Credited(c, g, call.now))
  }

  lemma AfterIsMetered(c: Config, g: Gate, call: Call)
    ensures Metered(c, g, call, Admits(c, g, call), After(c, g, call))
  {
  }

  // --- throughput over every run -------------------------------------------------

  // The gates of a run, one more than its calls, and which calls were admitted.
  ghost predicate MeteredRun(c: Config, gates: seq<Gate>, calls: seq<Call>, admitted: seq<bool>)
  {
    && |gates| == |calls| + 1 == |admitted| + 1
    && forall i :: 0 <= i < |calls| ==> Metered(c, gates[i], calls[i], admitted[i], gates[i + 1])
  }

  // What the admitted calls of a run asked for, each clamped to the buckets, and what giving up took.
  function Spent(c: Config, gates: seq<Gate>, calls: seq<Call>, admitted: seq<bool>): (spent: (int, int))
    requires |gates| == |calls| + 1 == |admitted| + 1
  {
    if calls == [] then (0, 0)
    else
      var n := |calls| - 1;
      var front, need := Spent(c, gates[..n + 1], calls[..n], admitted[..n]), calls[n].need;
      if admitted[n] then (front.0 + Min(need.ops, c.opsCapacity), front.1 + Min(need.bytes, c.bytesCapacity))
      else if calls[n].GiveUp? then
        (front.0 + gates[n].ops - gates[n + 1].ops, front.1 + gates[n].bytes - gates[n + 1].bytes)
      else front
  }

  lemma RefillBound(capacity: nat, rate: nat, tokens: nat, ms: nat, whole: nat, spent: int)
    requires spent + tokens <= capacity + rate * whole
    ensures spent + Min(tokens + ms * rate, capacity) <= capacity + rate * (whole + ms)
    ensures spent + tokens <= capacity + rate * (whole + ms)
  {
    assert rate * (whole + ms) == rate * whole + ms * rate;
  }

  // The ledger behind the bound: `whole` milliseconds were credited, no more than have passed.
  ghost predicate Ledger(c: Config, born: nat, g: Gate, spent: (int, int), whole: nat)
  {
    && born + whole * NANOS_PER_MS <= g.last
    && spent.0 + g.ops <= c.opsCapacity + c.opsRate * whole
    && spent.1 + g.bytes <= c.bytesCapacity + c.bytesRate * whole
  }

  lemma MillisecondsFit(last: nat, now: nat, ms: nat)
    requires ms == if now <= last then 0 else (now - last) / 1_000_000 % 0x1_0000_0000_0000_0000
    ensures ms > 0 ==> last + ms * NANOS_PER_MS <= now
  {
    if now > last {
      var all := (now - last) / 1_000_000;
      assert ms <= all && all * 1_000_000 <= now - last;
    }
  }

  lemma CallKeepsLedger(c: Config, born: nat, g: Gate, spent: (int, int), whole: nat, call: Call, admitted: bool,
                        h: Gate)
    returns (w: nat)
    requires Ledger(c, born, g, spent, whole) && Metered(c, g, call, admitted, h)
    ensures var need := call.need;
            var more := if admitted then (Min(need.ops, c.opsCapacity), Min(need.bytes, c.bytesCapacity))
                        else if call.GiveUp? then (g.ops - h.ops, g.bytes - h.bytes) else (0, 0);
            Ledger(c, born, h, (spent.0 + more.0, spent.1 + more.1), w)
  {
    w := whole;
    if call.TryAdmit? {
      var ms := if call.now <= g.last then 0 else (call.now - g.last) / 1_000_000 % 0x1_0000_0000_0000_0000;
      MillisecondsFit(g.last, call.now, ms);
      w := whole + ms;
      RefillBound(c.opsCapacity, c.opsRate, g.ops, ms, whole, spent.0);
      RefillBound(c.bytesCapacity, c.bytesRate, g.bytes, ms, whole, spent.1);
    }
  }

  lemma MeteredPrefix(c: Config, gates: seq<Gate>, calls: seq<Call>, admitted: seq<bool>, n: nat)
    requires MeteredRun(c, gates, calls, admitted) && n <= |calls|
    ensures MeteredRun(c, gates[..n + 1], calls[..n], admitted[..n])
  {
  }

  lemma OneCallMore(c: Config, gates: seq<Gate>, calls: seq<Call>, admitted: seq<bool>, i: nat, ok: bool, h: Gate)
    requires i < |calls| && MeteredRun(c, gates, calls[..i], admitted) && Metered(c, gates[i], calls[i], ok, h)
    ensures MeteredRun(c, gates + [h], calls[..i + 1], admitted + [ok])
  {
  }

  // The run of any calls is one, admitted where the gate admits.
  lemma {:induction false} RunIsMetered(c: Config, g: Gate, calls: seq<Call>)
    returns (gates: seq<Gate>, admitted: seq<bool>)
    ensures MeteredRun(c, gates, calls, admitted) && gates[0] == g && gates[|calls|] == Run(c, g, calls)
    ensures forall i :: 0 <= i < |calls| ==> (admitted[i] <==> Admits(c, gates[i], calls[i]))
  {
    gates, admitted := [g], [];
    if calls != [] {
      var n := |calls| - 1;
      gates, admitted := RunIsMetered(c, g, calls[..n]);
      AfterIsMetered(c, gates[n], calls[n]);
      var ok, h := Admits(c, gates[n], calls[n]), After(c, gates[n], calls[n]);
      OneCallMore(c, gates, calls, admitted, n, ok, h);
      assert calls[..n + 1] == calls;
      gates, admitted := gates + [h], admitted + [ok];
    }
  }

  lemma {:induction false} RunKeepsLedger(c: Config, gates: seq<Gate>, calls: seq<Call>, admitted: seq<bool>, born: nat)
    returns (whole: nat)
    requires MeteredRun(c, gates, calls, admitted) && gates[0] == Gate(c.opsCapacity, c.bytesCapacity, born)
    ensures Ledger(c, born, gates[|calls|], Spent(c, gates, calls, admitted), whole)
  {
    if calls == [] {
      whole := 0;
    } else {
      var n := |calls| - 1;
      MeteredPrefix(c, gates, calls, admitted, n);
      var w := RunKeepsLedger(c, gates[..n + 1], calls[..n], admitted[..n], born);
      var spent := Spent(c, gates[..n + 1], calls[..n], admitted[..n]);
      whole := CallKeepsLedger(c, born, gates[n], spent, w, calls[n], admitted[n], gates[n + 1]);
    }
  }

  lemma {:induction false} LastIsARead(c: Config, gates: seq<Gate>, calls: seq<Call>, admitted: seq<bool>, now: nat)
    requires MeteredRun(c, gates, calls, admitted) && gates[0].last <= now
    requires forall i :: 0 <= i < |calls| && calls[i].TryAdmit? ==> calls[i].now <= now
    ensures gates[|calls|].last <= now
  {
    if calls != [] {
      var n := |calls| - 1;
      MeteredPrefix(c, gates, calls, admitted, n);
      LastIsARead(c, gates[..n + 1], calls[..n], admitted[..n], now);
      assert Metered(c, gates[n], calls[n], admitted[n], gates[n + 1]);
    }
  }

  lemma MulMonotone(rate: nat, a: nat, b: nat)
    requires a <= b
    ensures rate * a <= rate * b
  {
  }

  // In every run from full buckets, by time `now`, the requests admitted, each clamped to the buckets, and
  // what was taken on giving up come to at most the capacity plus the refill of the whole milliseconds since
  // the limiter was made, in either dimension.
  lemma ThroughputBound(c: Config, gates: seq<Gate>, calls: seq<Call>, admitted: seq<bool>, born: nat, now: nat)
    requires MeteredRun(c, gates, calls, admitted) && gates[0] == Gate(c.opsCapacity, c.bytesCapacity, born)
    requires born <= now && forall i :: 0 <= i < |calls| && calls[i].TryAdmit? ==> calls[i].now <= now
    ensures var spent := Spent(c, gates, calls, admitted);
            && spent.0 <= c.opsCapacity + c.opsRate * ((now - born) / 1_000_000)
            && spent.1 <= c.bytesCapacity + c.bytesRate * ((now - born) / 1_000_000)
  {
    var whole := RunKeepsLedger(c, gates, calls, admitted, born);
    LastIsARead(c, gates, calls, admitted, now);
    assert whole <= (now - born) / 1_000_000;
    MulMonotone(c.opsRate, whole, (now - born) / 1_000_000);
    MulMonotone(c.bytesRate, whole, (now - born) / 1_000_000);
  }

  // --- no starvation ---------------------------------------------------------------

  // Polls for `need` between two instants, each refused.
  ghost predicate Refusals(c: Config, g: Gate, calls: seq<Call>, need: Need, from: nat, to: nat)
  {
    calls == [] ||
      var front, call := calls[..|calls| - 1], calls[|calls| - 1];
      && call.TryAdmit? && call.need == need && from <= call.now <= to
      && !Fits(Clamped(c, need), Credited(c, Run(c, g, front), call.now))
      && Refusals(c, g, front, need, from, to)
  }

  lemma {:induction false} LaterClock(c: Config, g: Gate, calls: seq<Call>, need: Need, from: nat, to: nat, later: nat)
    requires Refusals(c, g, calls, need, from, to) && to <= later
    ensures Refusals(c, g, calls, need, from, later)
  {
    if calls != [] {
      LaterClock(c, g, calls[..|calls| - 1], need, from, to, later);
    }
  }

  function Instants(calls: seq<Call>): seq<nat>
  {
    if calls == [] then []
    else
      var call := calls[|calls| - 1];
      Instants(calls[..|calls| - 1]) + (if call.TryAdmit? then [call.now] else [])
  }

  // Crediting the clock at each of the instants, nothing admitted in between.
  function Polled(c: Config, g: Gate, polls: seq<nat>): Gate
  {
    if polls == [] then g else Credited(c, Polled(c, g, polls[..|polls| - 1]), polls[|polls| - 1])
  }

  // The milliseconds they credit.
  function TotalMs(c: Config, g: Gate, polls: seq<nat>): nat
  {
    if polls == [] then 0
    else
      var front := polls[..|polls| - 1];
      TotalMs(c, g, front) + ElapsedMs(Polled(c, g, front).last, polls[|polls| - 1])
  }

  lemma RefillTwice(capacity: nat, rate: nat, tokens: nat, a: nat, b: nat)
    requires tokens <= capacity
    ensures Refilled(capacity, rate, Refilled(capacity, rate, tokens, a), b) == Refilled(capacity, rate, tokens, a + b)
  {
    assert (a + b) * rate == a * rate + b * rate;
  }

  lemma {:induction false} PolledIsRefilled(c: Config, g: Gate, polls: seq<nat>)
    requires g.ops <= c.opsCapacity && g.bytes <= c.bytesCapacity
    ensures Polled(c, g, polls).ops == Refilled(c.opsCapacity, c.opsRate, g.ops, TotalMs(c, g, polls))
    ensures Polled(c, g, polls).bytes == Refilled(c.bytesCapacity, c.bytesRate, g.bytes, TotalMs(c, g, polls))
  {
    if polls != [] {
      var front := polls[..|polls| - 1];
      var ms := ElapsedMs(Polled(c, g, front).last, polls[|polls| - 1]);
      PolledIsRefilled(c, g, front);
      RefillTwice(c.opsCapacity, c.opsRate, g.ops, TotalMs(c, g, front), ms);
      RefillTwice(c.bytesCapacity, c.bytesRate, g.bytes, TotalMs(c, g, front), ms);
    }
  }

  // Refused calls only credit the clock.
  lemma {:induction false} RefusalsArePolls(c: Config, g: Gate, calls: seq<Call>, need: Need, from: nat, to: nat)
    requires Refusals(c, g, calls, need, from, to)
    ensures Run(c, g, calls) == Polled(c, g, Instants(calls)) && |Instants(calls)| == |calls|
  {
    if calls != [] {
      var front, call := calls[..|calls| - 1], calls[|calls| - 1];
      RefusalsArePolls(c, g, front, need, from, to);
      assert Instants(calls)[..|calls| - 1] == Instants(front);
    }
  }

  // Refused calls accumulate: the gate holds the refill of all milliseconds credited so far.
  lemma PollsAccumulate(c: Config, g: Gate, calls: seq<Call>, need: Need, from: nat, to: nat)
    requires g.ops <= c.opsCapacity && g.bytes <= c.bytesCapacity && Refusals(c, g, calls, need, from, to)
    ensures var total := TotalMs(c, g, Instants(calls));
            && Run(c, g, calls).ops == Refilled(c.opsCapacity, c.opsRate, g.ops, total)
            && Run(c, g, calls).bytes == Refilled(c.bytesCapacity, c.bytesRate, g.bytes, total)
  {
    RefusalsArePolls(c, g, calls, need, from, to);
    PolledIsRefilled(c, g, Instants(calls));
  }

  // `total` milliseconds refill what the clamped request lacks.
  predicate Covers(c: Config, g: Gate, need: Need, total: nat)
  {
    && Min(need.ops, c.opsCapacity) <= g.ops + total * c.opsRate
    && Min(need.bytes, c.bytesCapacity) <= g.bytes + total * c.bytesRate
  }

  // After any refusals, a call is admitted exactly when the milliseconds credited by then cover the
  // request; clamping makes that possible for a request of any size.
  lemma AdmittedOnceCredited(c: Config, g: Gate, refused: seq<Call>, need: Need, from: nat, to: nat, now: nat)
    requires g.ops <= c.opsCapacity && g.bytes <= c.bytesCapacity && Refusals(c, g, refused, need, from, to)
    ensures Fits(Clamped(c, need), Credited(c, Run(c, g, refused), now)) <==>
            Covers(c, g, need, TotalMs(c, g, Instants(refused) + [now]))
  {
    RefusalsArePolls(c, g, refused, need, from, to);
    var polls := Instants(refused) + [now];
    assert polls[..|polls| - 1] == Instants(refused);
    PolledIsRefilled(c, g, polls);
  }

  // So the last of some refusals came before the milliseconds credited by then covered the request.
  lemma RefusedUncovered(c: Config, g: Gate, refused: seq<Call>, need: Need, from: nat, to: nat)
    requires g.ops <= c.opsCapacity && g.bytes <= c.bytesCapacity && Refusals(c, g, refused, need, from, to) &&
             refused != []
    ensures !Covers(c, g, need, TotalMs(c, g, Instants(refused)))
  {
    var front, call := refused[..|refused| - 1], refused[|refused| - 1];
    AdmittedOnceCredited(c, g, front, need, from, to, call.now);
  }

  // Polls at least a millisecond apart.
  predicate Spaced(polls: seq<nat>)
  {
    forall i :: 0 <= i < |polls| - 1 ==> polls[i] + NANOS_PER_MS <= polls[i + 1]
  }

  // A millisecond has passed since the last of them.
  predicate Rested(polls: seq<nat>, clock: nat)
  {
    polls != [] ==> polls[|polls| - 1] + NANOS_PER_MS <= clock
  }

  // Where the wait stands between two polls.
  ghost predicate Waiting(c: Config, g: Gate, refused: seq<Call>, need: Need, from: nat, clock: nat)
  {
    from <= clock && Refusals(c, g, refused, need, from, clock) && Spaced(Instants(refused)) &&
        Rested(Instants(refused), clock)
  }

  lemma KeepsWaiting(c: Config, g: Gate, refused: seq<Call>, need: Need, from: nat, clock: nat, later: nat)
    requires Waiting(c, g, refused, need, from, clock) && clock <= later
    ensures Waiting(c, g, refused, need, from, later)
  {
    LaterClock(c, g, refused, need, from, clock, later);
  }

  // One more refusal at `now`, and some time after it.
  lemma OneMore(c: Config, g: Gate, refused: seq<Call>, need: Need, from: nat, now: nat, later: nat)
    requires Waiting(c, g, refused, need, from, now) && now <= later
    requires !Fits(Clamped(c, need), Credited(c, Run(c, g, refused), now))
    ensures var longer := refused + [TryAdmit(now, need)];
            && Run(c, g, longer) == After(c, Run(c, g, refused), TryAdmit(now, need))
            && Refusals(c, g, longer, need, from, later) && Spaced(Instants(longer))
            && (now + NANOS_PER_MS <= later ==> Waiting(c, g, longer, need, from, later))
  {
    var longer := refused + [TryAdmit(now, need)];
    assert longer[..|refused|] == refused;
    assert Refusals(c, g, longer, need, from, now);
    LaterClock(c, g, longer, need, from, now, later);
  }

  lemma GapCredits(last: nat, now: nat)
    requires last + NANOS_PER_MS <= now < last + TWO64
    ensures ElapsedMs(last, now) >= 1
  {
    var gap := now - last;
    assert 1 <= gap / NANOS_PER_MS <= gap;
  }

  lemma {:induction false} PolledLast(c: Config, g: Gate, polls: seq<nat>)
    requires Spaced(polls) && polls != [] && g.last <= polls[0]
    ensures g.last <= Polled(c, g, polls).last <= polls[|polls| - 1]
  {
    var front := polls[..|polls| - 1];
    if front != [] {
      assert polls[|polls| - 2] + NANOS_PER_MS <= polls[|polls| - 1];
      PolledLast(c, g, front);
    }
  }

  // Each credits at least one millisecond, but for the first.
  lemma {:induction false} SpacedPollsCredit(c: Config, g: Gate, polls: seq<nat>)
    requires Spaced(polls) && polls != [] && g.last <= polls[0] && polls[|polls| - 1] < g.last + TWO64
    ensures TotalMs(c, g, polls) >= |polls| - 1
  {
    if |polls| > 1 {
      var front, now := polls[..|polls| - 1], polls[|polls| - 1];
      assert polls[|polls| - 2] + NANOS_PER_MS <= now;
      SpacedPollsCredit(c, g, front);
      PolledLast(c, g, front);
      GapCredits(Polled(c, g, front).last, now);
    }
  }

  lemma CoversMore(c: Config, g: Gate, need: Need, a: nat, b: nat)
    requires a <= b && Covers(c, g, need, a)
    ensures Covers(c, g, need, b)
  {
    MulMonotone(c.opsRate, a, b);
    MulMonotone(c.bytesRate, a, b);
  }

  // Spaced polls are refused at most as long as it takes to refill the request.
  lemma RefusalsAreFew(c: Config, g: Gate, refused: seq<Call>, need: Need, from: nat, to: nat)
    requires g.ops <= c.opsCapacity && g.bytes <= c.bytesCapacity && Refusals(c, g, refused, need, from, to) &&
             refused != []
    requires Spaced(Instants(refused)) && g.last <= from && to < g.last + TWO64
    ensures !Covers(c, g, need, |refused| - 1)
  {
    var polls := Instants(refused);
    RefusalsArePolls(c, g, refused, need, from, to);
    InstantsWithin(c, g, refused, need, from, to);
    SpacedPollsCredit(c, g, polls);
    RefusedUncovered(c, g, refused, need, from, to);
    if Covers(c, g, need, |refused| - 1) { CoversMore(c, g, need, |refused| - 1, TotalMs(c, g, polls)); }
  }

  lemma {:induction false} InstantsWithin(c: Config, g: Gate, calls: seq<Call>, need: Need, from: nat, to: nat)
    requires Refusals(c, g, calls, need, from, to)
    ensures forall i :: 0 <= i < |Instants(calls)| ==> from <= Instants(calls)[i] <= to
  {
    if calls != [] { InstantsWithin(c, g, calls[..|calls| - 1], need, from, to); }
  }

  // --- the limiter object ------------------------------------------------------------

  class DeviceRateLimiter {
    const config: Config
    const ops: TokenBucket
    const bytes: TokenBucket
    var last: nat

    ghost predicate Valid()
      reads this, ops, bytes
    {
      && ops != bytes && ops.Valid() && bytes.Valid()
      && config == Config(ops.capacity, ops.refillPerMs, bytes.capacity, bytes.refillPerMs)
    }

    ghost function Value(): Gate
      reads this, ops, bytes
    {
      Gate(ops.tokens, bytes.tokens, last)
    }

    constructor (config: Config, now: nat)
      ensures Valid() && fresh(ops) && fresh(bytes) && this.config == config && Value() == Full(config, now)
    {
      this.config := config;
      this.ops := new TokenBucket(config.opsCapacity, config.opsRate);
      this.bytes := new TokenBucket(config.bytesCapacity, config.bytesRate);
      last := now;
    }

    method TryAdmit(now: nat, need: Need) returns (admitted: bool)
      requires Valid() && need.ops < TWO64 && need.bytes < TWO64
      modifies this`last, ops, bytes
      ensures Valid()
      ensures Value() == After(config, old(Value()), Call.TryAdmit(now, need))
      ensures admitted <==> Fits(Clamped(config, need), Credited(config, old(Value()), now))
      ensures Metered(config, old(Value()), Call.TryAdmit(now, need), admitted, Value())
    {
      var ms := ElapsedMs(last, now);
      if ms > 0 {
        ops.Refill(ms);
        bytes.Refill(ms);
        last := now;
      }
      var needOps := Min(need.ops, config.opsCapacity);
      var needBytes := Min(need.bytes, config.bytesCapacity);
      if ops.tokens >= needOps && bytes.tokens >= needBytes {
        var _ := ops.Consume(needOps);
        var _ := bytes.Consume(needBytes);
        return true;
      }
      return false;
    }

    // Any calls, one after another: the limiter goes through a metered run.
    method Serve(calls: seq<Call>) returns (admitted: seq<bool>, ghost gates: seq<Gate>)
      requires Valid() && forall i :: 0 <= i < |calls| ==> calls[i].need.ops < TWO64 && calls[i].need.bytes < TWO64
      modifies this`last, ops, bytes
      ensures Valid() && MeteredRun(config, gates, calls, admitted)
      ensures gates[0] == old(Value()) && gates[|calls|] == Value()
    {
      admitted, gates := [], [Value()];
      for i := 0 to |calls|
        invariant Valid() && MeteredRun(config, gates, calls[..i], admitted)
        invariant gates[0] == old(Value()) && gates[i] == Value()
      {
        var ok := false;
        match calls[i] {
          case TryAdmit(now, need) => ok := TryAdmit(now, need);
          case GiveUp(need) => TakeWhatIsThere(need);
        }
        OneCallMore(config, gates, calls, admitted, i, ok, Value());
        admitted, gates := admitted + [ok], gates + [Value()];
      }
      assert calls[..|calls|] == calls;
    }

    // Poll until admitted or the deadline has passed. The clock only moves forward, and the sleep
    // between two polls lasts at least a millisecond. What the gate sees is refused polls, then one
    // that is admitted or, past the deadline, a charge of whatever is there; and it comes to that only
    // if the milliseconds credited by the last poll do not cover the request.
    method WaitAdmit(need: Need, maxWait: nat, start: nat)
      returns (clock: nat, ghost refused: seq<Call>, ghost ending: Call)
      requires Valid() && need.ops < TWO64 && need.bytes < TWO64
      modifies this`last, ops, bytes
      ensures Valid() && start <= clock
      ensures Value() == After(config, Run(config, old(Value()), refused), ending)
      ensures Refusals(config, old(Value()), refused, need, start, clock)
      ensures Spaced(Instants(refused))
      ensures ending.GiveUp? ==>
                && ending.need == need && start + maxWait <= clock && refused != []
                && !Covers(config, old(Value()), need, TotalMs(config, old(Value()), Instants(refused)))
      ensures ending.TryAdmit? ==>
                && ending.need == need && start <= ending.now <= clock
                && Fits(Clamped(config, need), Credited(config, Run(config, old(Value()), refused), ending.now))
                && Covers(config, old(Value()), need, TotalMs(config, old(Value()), Instants(refused) + [ending.now]))
    {
      ghost var g := Value();
      refused, clock := [], start;
      var deadline := start + maxWait;
      while true
        invariant Valid() && Value() == Run(config, g, refused) && Waiting(config, g, refused, need, start, clock)
        decreases deadline - clock
      {
        ghost var earlier := clock;
        clock := ReadClock(clock);
        KeepsWaiting(config, g, refused, need, start, earlier, clock);
        ghost var now := clock;
        ending := Call.TryAdmit(now, need);
        AdmittedOnceCredited(config, g, refused, need, start, clock, now);
        var admitted := TryAdmit(clock, need);
        if admitted { return; }
        clock := ReadClock(clock);
        if clock >= deadline {
          OneMore(config, g, refused, need, start, now, clock);
          refused := refused + [ending];
          RefusedUncovered(config, g, refused, need, start, clock);
          ending := GiveUp(need);
          TakeWhatIsThere(need);
          return;
        }
        clock := ReadClock(clock + NANOS_PER_MS);
        OneMore(config, g, refused, need, start, now, clock);
        refused := refused + [ending];
      }
    }

    method TakeWhatIsThere(need: Need)
      requires Valid() && need.ops < TWO64 && need.bytes < TWO64
      modifies ops, bytes
      ensures Valid() && Value() == After(config, old(Value()), GiveUp(need))
      ensures Metered(config, old(Value()), GiveUp(need), false, Value())
    {
      var needOps := Min(need.ops, config.opsCapacity);
      var needBytes := Min(need.bytes, config.bytesCapacity);
      var _ := ops.Consume(Min(needOps, ops.tokens));
      var _ := bytes.Consume(Min(needBytes, bytes.tokens));
    }
  }

  // A monotone clock: some instant not before `clock`.
  method ReadClock(clock: nat) returns (now: nat)
    ensures clock <= now
  {
    var passed: int := *;
    now := if passed > 0 then clock + passed else clock;
  }
}
