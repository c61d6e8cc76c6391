// The host-to-guest receive path shared by the vsock and net devices: items go straight into a
// posted guest buffer, or wait in a bounded backlog that drops its oldest item when it is full.
module RxBacklog {
  import opened Prelude

  // `buffers` rx chains are posted; `delivered` is everything placed in the used ring so far.
  datatype Rx<T> = Rx(buffers: nat, backlog: seq<T>, delivered: seq<T>)

  function Placed<T>(rx: Rx<T>, item: T): Rx<T>
    requires rx.buffers > 0
  {
    rx.(buffers := rx.buffers - 1, delivered := rx.delivered + [item])
  }

  function Enqueued<T>(limit: nat, rx: Rx<T>, item: T): Rx<T>
  {
    var kept := if |rx.backlog| >= limit && rx.backlog != [] then rx.backlog[1..] else rx.backlog;
    rx.(backlog := kept + [item])
  }

  function Pushed<T>(limit: nat, rx: Rx<T>, item: T): Rx<T>
  {
    if rx.backlog == [] && rx.buffers > 0 then Placed(rx, item) else Enqueued(limit, rx, item)
  }

  function Drained<T>(rx: Rx<T>): Rx<T>
  {
    var k := Min(rx.buffers, |rx.backlog|);
    Rx(rx.buffers - k, rx.backlog[k..], rx.delivered + rx.backlog[..k])
  }

  // --- what a run delivers ---------------------------------------------------------

  // `picks` are the positions in `pushed` of the items of `items`, in order.
  ghost predicate Picks<T>(picks: seq<nat>, items: seq<T>, pushed: seq<T>)
  {
    && |picks| == |items|
    && (forall i :: 0 <= i < |picks| ==> picks[i] < |pushed| && pushed[picks[i]] == items[i])
    && (forall i, j :: 0 <= i < j < |picks| ==> picks[i] < picks[j])
  }

  // Delivered items followed by the backlog are a subsequence of what was pushed, in order; the
  // backlog holds the newest items, all of them consecutive, and stays within its bound.
  ghost predicate Fifo<T>(limit: nat, rx: Rx<T>, pushed: seq<T>)
  {
    && |rx.backlog| <= limit
    && rx.backlog <= pushed[Max0(|pushed| - |rx.backlog|)..]
    && |rx.backlog| <= |pushed|
    && exists picks :: Picks(picks, rx.delivered + rx.backlog, pushed)
  }

  function Max0(n: int): nat { if n < 0 then 0 else n }

  // How many items have been lost.
  function Lost<T>(rx: Rx<T>, pushed: seq<T>): int
  {
    |pushed| - |rx.delivered| - |rx.backlog|
  }

  lemma PicksLast<T>(picks: seq<nat>, items: seq<T>, pushed: seq<T>, item: T)
    requires Picks(picks, items, pushed)
    ensures Picks(picks + [|pushed|], items + [item], pushed + [item])
  {
  }

  lemma PicksSkip<T>(picks: seq<nat>, items: seq<T>, pushed: seq<T>, k: nat)
    requires Picks(picks, items, pushed) && k < |items|
    ensures Picks(picks[..k] + picks[k + 1..], items[..k] + items[k + 1..], pushed)
  {
  }

  lemma PushKeepsFifo<T>(limit: nat, rx: Rx<T>, pushed: seq<T>, item: T)
    requires limit > 0 && Fifo(limit, rx, pushed)
    ensures Fifo(limit, Pushed(limit, rx, item), pushed + [item])
    ensures Lost(Pushed(limit, rx, item), pushed + [item]) ==
            Lost(rx, pushed) + (if |rx.backlog| == limit then 1 else 0)
  {
    var all := rx.delivered + rx.backlog;
    var picks :| Picks(picks, all, pushed);
    var after := Pushed(limit, rx, item);
    if |rx.backlog| == limit {
      var d := |rx.delivered|;
      PicksSkip(picks, all, pushed, d);
      var fewer := all[..d] + all[d + 1..];
      PicksLast(picks[..d] + picks[d + 1..], fewer, pushed, item);
      assert after.delivered + after.backlog == fewer + [item];
    } else {
      PicksLast(picks, all, pushed, item);
      assert after.delivered + after.backlog == all + [item];
    }
  }

  lemma DrainKeepsFifo<T>(limit: nat, rx: Rx<T>, pushed: seq<T>)
    requires Fifo(limit, rx, pushed)
    ensures Fifo(limit, Drained(rx), pushed) && Lost(Drained(rx), pushed) == Lost(rx, pushed)
    ensures Drained(rx).backlog == [] || Drained(rx).buffers == 0
  {
    assert Drained(rx).delivered + Drained(rx).backlog == rx.delivered + rx.backlog;
  }

  // Nothing lost means nothing missing: the two sequences are equal.
  lemma LosslessIsExact<T>(limit: nat, rx: Rx<T>, pushed: seq<T>)
    requires Fifo(limit, rx, pushed)
    ensures Lost(rx, pushed) >= 0
    ensures Lost(rx, pushed) == 0 ==> rx.delivered + rx.backlog == pushed
  {
    var all := rx.delivered + rx.backlog;
    var picks :| Picks(picks, all, pushed);
    PicksAreSpread(picks, all, pushed);
    if Lost(rx, pushed) == 0 {
      assert forall i :: 0 <= i < |picks| ==> picks[i] == i;
    }
  }

  lemma {:induction false} PicksFrom<T>(picks: seq<nat>, items: seq<T>, pushed: seq<T>, i: nat)
    requires Picks(picks, items, pushed) && i < |picks|
    ensures i <= picks[i]
  {
    if i > 0 { PicksFrom(picks, items, pushed, i - 1); }
  }

  lemma {:induction false} PicksUpTo<T>(picks: seq<nat>, items: seq<T>, pushed: seq<T>, i: nat)
    requires Picks(picks, items, pushed) && i < |picks|
    ensures picks[i] <= |pushed| - (|picks| - i)
    decreases |picks| - i
  {
    if i < |picks| - 1 { PicksUpTo(picks, items, pushed, i + 1); }
  }

  lemma PicksAreSpread<T>(picks: seq<nat>, items: seq<T>, pushed: seq<T>)
    requires Picks(picks, items, pushed)
    ensures |picks| <= |pushed|
    ensures forall i :: 0 <= i < |picks| ==> i <= picks[i] <= |pushed| - |picks| + i
  {
    forall i | 0 <= i < |picks| ensures i <= picks[i] <= |pushed| - |picks| + i {
      PicksFrom(picks, items, pushed, i);
      PicksUpTo(picks, items, pushed, i);
    }
    if |picks| > 0 { PicksFrom(picks, items, pushed, |picks| - 1); }
  }

  // --- whole runs --------------------------------------------------------------------

  datatype Event<T> = Push(item: T) | Post(chains: nat) | Notify

  function Step<T>(limit: nat, rx: Rx<T>, e: Event<T>): Rx<T>
  {
    match e
    case Push(item) => Pushed(limit, rx, item)
    case Post(chains) => rx.(buffers := rx.buffers + chains)
    case Notify => Drained(rx)
  }

  function Run<T>(limit: nat, events: seq<Event<T>>): Rx<T>
  {
    if events == [] then Rx(0, [], [])
    else Step(limit, Run(limit, events[..|events| - 1]), events[|events| - 1])
  }

  function Items<T>(events: seq<Event<T>>): seq<T>
  {
    if events == [] then []
    else Extended(Items(events[..|events| - 1]), events[|events| - 1])
  }

  // What the guest posted and notified.
  function Posts<T>(events: seq<Event<T>>): seq<Event<T>>
  {
    if events == [] then []
    else Posts(events[..|events| - 1]) + (if events[|events| - 1].Push? then [] else [events[|events| - 1]])
  }

  lemma PostsPush<T>(events: seq<Event<T>>, item: T)
    ensures Posts(events + [Push(item)]) == Posts(events)
  {
    assert (events + [Push(item)])[..|events|] == events;
  }

  function Extended<T>(pushed: seq<T>, e: Event<T>): seq<T>
  {
    if e.Push? then pushed + [e.item] else pushed
  }

  // Pushes that found the backlog full.
  function Overflows<T>(limit: nat, events: seq<Event<T>>): nat
  {
    if events == [] then 0
    else
      var front := events[..|events| - 1];
      var full := events[|events| - 1].Push? && |Run(limit, front).backlog| == limit;
      Overflows(limit, front) + (if full then 1 else 0)
  }

  lemma StepKeepsFifo<T>(limit: nat, rx: Rx<T>, pushed: seq<T>, e: Event<T>)
    requires limit > 0 && Fifo(limit, rx, pushed)
    ensures Fifo(limit, Step(limit, rx, e), Extended(pushed, e))
    ensures Lost(Step(limit, rx, e), Extended(pushed, e)) ==
            Lost(rx, pushed) + (if e.Push? && |rx.backlog| == limit then 1 else 0)
  {
    match e {
      case Push(item) => PushKeepsFifo(limit, rx, pushed, item);
      case Post(_) =>
      case Notify => DrainKeepsFifo(limit, rx, pushed);
    }
  }

  lemma EmptyIsFifo<T>(limit: nat, buffers: nat)
    ensures Fifo<T>(limit, Rx(buffers, [], []), [])
  {
    var picks: seq<nat> := [];
    assert Picks<T>(picks, [] + [], []);
  }

  lemma {:induction false} RunKeepsFifo<T>(limit: nat, events: seq<Event<T>>)
    requires limit > 0
    ensures Fifo(limit, Run(limit, events), Items(events))
    ensures Lost(Run(limit, events), Items(events)) == Overflows(limit, events)
  {
    if events == [] {
      EmptyIsFifo<T>(limit, 0);
    } else {
      var front := events[..|events| - 1];
      RunKeepsFifo(limit, front);
      StepKeepsFifo(limit, Run(limit, front), Items(front), events[|events| - 1]);
    }
  }

  // Over every run: an order-preserving subsequence with exactly one item missing per push that
  // met a full backlog, so the whole sequence when the bound is never hit.
  lemma RunIsFifo<T>(limit: nat, events: seq<Event<T>>)
    requires limit > 0
    ensures Fifo(limit, Run(limit, events), Items(events))
    ensures |Items(events)| == |Run(limit, events).delivered| + |Run(limit, events).backlog| + Overflows(limit, events)
    ensures Overflows(limit, events) == 0 ==> Run(limit, events).delivered + Run(limit, events).backlog == Items(events)
  {
    RunKeepsFifo(limit, events);
    LosslessIsExact(limit, Run(limit, events), Items(events));
  }

  function Posted<T>(events: seq<Event<T>>): nat
  {
    if events == [] then 0
    else Posted(events[..|events| - 1]) + (if events[|events| - 1].Post? then events[|events| - 1].chains else 0)
  }

  // Every buffer posted is still free or holds one item delivered.
  lemma {:induction false} BuffersBalance<T>(limit: nat, events: seq<Event<T>>)
    ensures Run(limit, events).buffers + |Run(limit, events).delivered| == Posted(events)
  {
    if events != [] { BuffersBalance(limit, events[..|events| - 1]); }
  }

  // A later state has delivered everything an earlier one had, in the same places.
  lemma {:induction false} DeliveredGrows<T>(limit: nat, events: seq<Event<T>>, n: nat)
    requires n <= |events|
    ensures Run(limit, events[..n]).delivered <= Run(limit, events).delivered
    decreases |events|
  {
    if n == |events| {
      assert events[..n] == events;
    } else {
      var front := events[..|events| - 1];
      DeliveredGrows(limit, front, n);
      assert front[..n] == events[..n];
    }
  }

  // --- byte streams carried by the items ---------------------------------------------

  // The bytes some items carry, in order.
  function Stream<T>(f: T -> seq<byte>, items: seq<T>): seq<byte>
  {
    if items == [] then [] else Stream(f, items[..|items| - 1]) + f(items[|items| - 1])
  }

  // What a push takes out of a full backlog, and what it leaves.
  function Victim<T>(limit: nat, rx: Rx<T>): seq<T>
  {
    if |rx.backlog| >= limit && rx.backlog != [] then [rx.backlog[0]] else []
  }

  function Spared<T>(limit: nat, rx: Rx<T>): seq<T>
  {
    rx.backlog[|Victim(limit, rx)|..]
  }

  // The items a full backlog pushed out, oldest first.
  function Dropped<T>(limit: nat, events: seq<Event<T>>): seq<T>
  {
    if events == [] then []
    else
      var front := events[..|events| - 1];
      Dropped(limit, front) + (if events[|events| - 1].Push? then Victim(limit, Run(limit, front)) else [])
  }

  lemma {:induction false} StreamConcat<T>(f: T -> seq<byte>, a: seq<T>, b: seq<T>)
    ensures Stream(f, a + b) == Stream(f, a) + Stream(f, b)
    decreases |b|
  {
    if b == [] {
      assert a + b == a;
    } else {
      assert (a + b)[..|a + b| - 1] == a + b[..|b| - 1];
      StreamConcat(f, a, b[..|b| - 1]);
    }
  }

  function Kept<T>(rx: Rx<T>): seq<T>
  {
    rx.delivered + rx.backlog
  }

  lemma KeptParts<T>(limit: nat, rx: Rx<T>, item: T)
    ensures Kept(rx) == rx.delivered + Victim(limit, rx) + Spared(limit, rx)
    ensures Kept(Pushed(limit, rx, item)) == rx.delivered + Spared(limit, rx) + [item]
  {
  }

  // One push: the item joins at the end, and the victim, if any, leaves where the backlog starts.
  lemma PushedStream<T>(f: T -> seq<byte>, limit: nat, rx: Rx<T>, item: T)
    ensures var (d, v, r) := (Stream(f, rx.delivered), Stream(f, Victim(limit, rx)), Stream(f, Spared(limit, rx)));
            Stream(f, Kept(rx)) == d + v + r && Stream(f, Kept(Pushed(limit, rx, item))) == d + r + f(item)
  {
    KeptParts(limit, rx, item);
    StreamConcat(f, rx.delivered, Victim(limit, rx));
    StreamConcat(f, rx.delivered + Victim(limit, rx), Spared(limit, rx));
    StreamConcat(f, rx.delivered, Spared(limit, rx));
    SnocStream(f, rx.delivered + Spared(limit, rx), item);
  }

  lemma Balance(i: seq<byte>, d: seq<byte>, v: seq<byte>, r: seq<byte>, p: seq<byte>, x: seq<byte>)
    requires |i| == |d + v + r| + |p| && (d + v + r == i <==> p == [])
    ensures |i + x| == |d + r + x| + |p + v| && (d + r + x == i + x <==> p + v == [])
  {
    if p + v == [] {
      assert v == [] && p == [];
      assert d + v + r == d + r;
    }
  }

  lemma StreamStep<T>(f: T -> seq<byte>, limit: nat, events: seq<Event<T>>)
    requires events != []
    ensures var front := events[..|events| - 1];
            var e := events[|events| - 1];
            !e.Push? ==> && Stream(f, Kept(Run(limit, events))) == Stream(f, Kept(Run(limit, front)))
                         && Items(events) == Items(front) && Dropped(limit, events) == Dropped(limit, front)
  {
    var front := events[..|events| - 1];
    if events[|events| - 1].Notify? {
      var rx := Run(limit, front);
      assert Kept(Drained(rx)) == Kept(rx);
    }
  }

  lemma SnocStream<T>(f: T -> seq<byte>, items: seq<T>, item: T)
    ensures Stream(f, items + [item]) == Stream(f, items) + f(item)
  {
    assert (items + [item])[..|items|] == items;
  }

  // The bytes that reach the guest or wait for it are all the bytes pushed exactly when no dropped
  // item carried any; what is missing is what the dropped items carried.
  lemma {:induction false} StreamSurvives<T>(f: T -> seq<byte>, limit: nat, events: seq<Event<T>>)
    ensures |Stream(f, Items(events))| == |Stream(f, Kept(Run(limit, events)))| + |Stream(f, Dropped(limit, events))|
    ensures Stream(f, Kept(Run(limit, events))) == Stream(f, Items(events)) <==> Stream(f, Dropped(limit, events)) == []
  {
    if events == [] {
      assert Kept<T>(Rx(0, [], [])) == [];
    } else {
      var front, e := events[..|events| - 1], events[|events| - 1];
      StreamSurvives(f, limit, front);
      StreamStep(f, limit, events);
      if e.Push? {
        var rx := Run(limit, front);
        PushedStream(f, limit, rx, e.item);
        SnocStream(f, Items(front), e.item);
        StreamConcat(f, Dropped(limit, front), Victim(limit, rx));
        Balance(Stream(f, Items(front)), Stream(f, rx.delivered), Stream(f, Victim(limit, rx)),
                Stream(f, Spared(limit, rx)), Stream(f, Dropped(limit, front)), f(e.item));
      }
    }
  }

  lemma PushFills<T>(limit: nat, front: seq<T>, delivered: seq<T>, item: T)
    requires |front| < limit
    ensures Pushed(limit, Rx(0, front, delivered), item) == Rx(0, front + [item], delivered)
    ensures Victim(limit, Rx(0, front, delivered)) == []
  {
  }

  lemma FillStep<T>(limit: nat, events: seq<Event<T>>, mid: seq<Event<T>>, front: seq<T>, delivered: seq<T>, item: T)
    requires |front| < limit && Run(limit, mid) == Rx(0, front, delivered)
    requires events != [] && events[..|events| - 1] == mid && events[|events| - 1] == Push(item)
    ensures Run(limit, events) == Rx(0, front + [item], delivered) && Dropped(limit, events) == Dropped(limit, mid)
  {
    RunSnoc(limit, events, mid, item);
    PushFills(limit, front, delivered, item);
  }

  lemma RestSnoc<T>(events: seq<Event<T>>)
    requires events != []
    ensures Items(events) == Items(events[..|events| - 1]) +
            (if events[|events| - 1].Push? then [events[|events| - 1].item] else [])
    ensures Posts(events) == Posts(events[..|events| - 1]) +
            (if events[|events| - 1].Push? then [] else [events[|events| - 1]])
  {
  }

  lemma {:induction false} ItemsOfPushes<T>(trace: seq<Event<T>>, items: seq<T>)
    ensures Items(trace + Pushes(items)) == Items(trace) + items && Posts(trace + Pushes(items)) == Posts(trace)
  {
    if items == [] {
      assert trace + Pushes(items) == trace;
    } else {
      ItemsOfPushes(trace, items[..|items| - 1]);
      PushesSnoc(trace, items);
      RestSnoc(trace + Pushes(items));
      SplitLast(items);
      Regroup(Items(trace), items[..|items| - 1], [items[|items| - 1]]);
    }
  }

  lemma Regroup<T>(a: seq<T>, b: seq<T>, c: seq<T>)
    ensures a + b + c == a + (b + c)
  {
  }

  lemma SplitLast<T>(items: seq<T>)
    requires items != []
    ensures items == items[..|items| - 1] + [items[|items| - 1]]
  {
  }

  lemma FillMore<T>(limit: nat, before: seq<Event<T>>, items: seq<T>, delivered: seq<T>)
    requires 0 < |items| <= limit
    requires Run(limit, before + Pushes(items[..|items| - 1])) == Rx(0, items[..|items| - 1], delivered)
    ensures Run(limit, before + Pushes(items)) == Rx(0, items, delivered)
    ensures Dropped(limit, before + Pushes(items)) == Dropped(limit, before + Pushes(items[..|items| - 1]))
  {
    var n := |items| - 1;
    PushesSnoc(before, items);
    SplitLast(items);
    FillStep(limit, before + Pushes(items), before + Pushes(items[..n]), items[..n], delivered, items[n]);
  }

  // Pushes while no buffer is posted fill the backlog; one more than it holds loses the first.
  lemma {:induction false} PushesFill<T>(limit: nat, before: seq<Event<T>>, items: seq<T>)
    requires Run(limit, before).buffers == 0 && Run(limit, before).backlog == [] && |items| <= limit
    ensures Run(limit, before + Pushes(items)) == Rx(0, items, Run(limit, before).delivered)
    ensures Dropped(limit, before + Pushes(items)) == Dropped(limit, before)
  {
    if items == [] {
      assert before + Pushes(items) == before;
    } else {
      var n := |items| - 1;
      PushesFill(limit, before, items[..n]);
      FillMore(limit, before, items, Run(limit, before).delivered);
    }
  }

  lemma RunSnoc<T>(limit: nat, events: seq<Event<T>>, before: seq<Event<T>>, item: T)
    requires events != [] && events[..|events| - 1] == before && events[|events| - 1] == Push(item)
    ensures Run(limit, events) == Pushed(limit, Run(limit, before), item)
    ensures Dropped(limit, events) == Dropped(limit, before) + Victim(limit, Run(limit, before))
  {
  }

  lemma PushesSnoc<T>(before: seq<Event<T>>, items: seq<T>)
    requires items != []
    ensures var events := before + Pushes(items);
            && |events| > 0 && events[..|events| - 1] == before + Pushes(items[..|items| - 1])
            && events[|events| - 1] == Push(items[|items| - 1])
  {
  }

  lemma FullPush<T>(limit: nat, delivered: seq<T>, backlog: seq<T>, item: T)
    requires limit > 0 && |backlog| == limit
    ensures Pushed(limit, Rx(0, backlog, delivered), item) == Rx(0, backlog[1..] + [item], delivered)
    ensures Victim(limit, Rx(0, backlog, delivered)) == [backlog[0]]
  {
  }

  lemma OnePushTooMany<T>(limit: nat, before: seq<Event<T>>, full: seq<T>, item: T)
    requires limit > 0 && |full| == limit
    requires Run(limit, before + Pushes(full)) == Rx(0, full, Run(limit, before).delivered)
    ensures Run(limit, before + Pushes(full + [item])) == Rx(0, full[1..] + [item], Run(limit, before).delivered)
    ensures Dropped(limit, before + Pushes(full + [item])) == Dropped(limit, before + Pushes(full)) + [full[0]]
  {
    PushesSnoc(before, full + [item]);
    assert (full + [item])[..|full|] == full;
    RunSnoc(limit, before + Pushes(full + [item]), before + Pushes(full), item);
    FullPush(limit, Run(limit, before).delivered, full, item);
  }

  lemma OverflowLosesTheFirst<T>(limit: nat, before: seq<Event<T>>, items: seq<T>)
    requires limit > 0 && |items| == limit + 1
    requires Run(limit, before).buffers == 0 && Run(limit, before).backlog == []
    ensures Kept(Run(limit, before + Pushes(items))) == Run(limit, before).delivered + items[1..]
    ensures Dropped(limit, before + Pushes(items)) == Dropped(limit, before) + [items[0]]
  {
    var front := items[..limit];
    assert items == front + [items[limit]];
    assert front[1..] + [items[limit]] == items[1..];
    PushesFill(limit, before, front);
    OnePushTooMany(limit, before, front, items[limit]);
  }

  // --- the devices ----------------------------------------------------------------------

  // One device's receive side. `trace` records what was handed over, posted and notified, in order.
  class RxRing<T> {
    const limit: nat
    var buffers: nat
    var backlog: seq<T>
    var delivered: seq<T>
    ghost var trace: seq<Event<T>>

    ghost function State(): Rx<T>
      reads this
    {
      Rx(buffers, backlog, delivered)
    }

    // The state is that of the run so far, so everything proved of runs holds of it.
    ghost predicate Valid()
      reads this
    {
      limit > 0 && State() == Run(limit, trace)
    }

    constructor (limit: nat)
      requires limit > 0
      ensures Valid() && this.limit == limit && trace == [] && State() == Rx(0, [], [])
    {
      this.limit, buffers, backlog, delivered, trace := limit, 0, [], [], [];
    }

    method Post(chains: nat)
      requires Valid()
      modifies this`buffers, this`trace
      ensures Valid() && trace == old(trace) + [Event.Post(chains)]
    {
      buffers := buffers + chains;
      trace := trace + [Event.Post(chains)];
      assert trace[..|trace| - 1] == old(trace);
    }

    method WriteRx(item: T) returns (placed: bool)
      modifies this`buffers, this`delivered
      ensures placed == (old(buffers) > 0)
      ensures State() == if placed then Placed(old(State()), item) else old(State())
    {
      if buffers == 0 { return false; }
      buffers := buffers - 1;
      delivered := delivered + [item];
      return true;
    }

    method EnqueueBacklog(item: T)
      modifies this`backlog
      ensures State() == Enqueued(limit, old(State()), item)
    {
      if |backlog| >= limit && backlog != [] { backlog := backlog[1..]; }
      backlog := backlog + [item];
    }

    method PushToGuest(item: T) returns (placed: bool)
      requires Valid()
      modifies this
      ensures Valid() && trace == old(trace) + [Push(item)]
      ensures placed == (old(backlog) == [] && old(buffers) > 0)
    {
      trace := trace + [Push(item)];
      assert trace[..|trace| - 1] == old(trace);
      if backlog != [] {
        EnqueueBacklog(item);
        return false;
      }
      placed := WriteRx(item);
      if !placed { EnqueueBacklog(item); }
    }

    method DrainRxBacklog() returns (n: nat)
      requires Valid()
      modifies this`buffers, this`backlog, this`delivered, this`trace
      ensures Valid() && trace == old(trace) + [Notify]
      ensures n == |delivered| - |old(delivered)| && old(delivered) <= delivered
      ensures backlog == [] || buffers == 0
    {
      n := MoveBacklog();
      trace := trace + [Notify];
      assert trace[..|trace| - 1] == old(trace);
    }

    method MoveBacklog() returns (n: nat)
      modifies this`buffers, this`backlog, this`delivered
      ensures State() == Drained(old(State()))
      ensures n == |delivered| - |old(delivered)|
    {
      n := 0;
      ghost var waiting := backlog;
      while backlog != []
        invariant n <= |waiting| && n <= old(buffers) && buffers == old(buffers) - n
        invariant backlog == waiting[n..]
        invariant delivered == old(delivered) + waiting[..n]
      {
        var item := backlog[0];
        backlog := backlog[1..];
        var placed := WriteRx(item);
        if !placed {
          backlog := [item] + backlog;
          break;
        }
        assert waiting[..n + 1] == waiting[..n] + [item];
        n := n + 1;
      }
    }
  }

  const NET_BACKLOG_MAX: nat := 64

  const NET_HEADER: seq<byte> := [0, 0, 0, 0, 0, 0, 0, 0, 0, 0, 1, 0]

  type Frame = seq<byte>

  function Framed(frames: seq<Frame>): seq<Frame>
  {
    if frames == [] then [] else Framed(frames[..|frames| - 1]) + [NET_HEADER + frames[|frames| - 1]]
  }

  // Ten zero bytes and one buffer, in little-endian order, in front of every frame.
  lemma {:induction false} FramedAt(frames: seq<Frame>, i: nat)
    requires i < |frames|
    ensures |Framed(frames)| == |frames| && Framed(frames)[i] == [0, 0, 0, 0, 0, 0, 0, 0, 0, 0, 1, 0] + frames[i]
  {
    if |frames| > 1 { FramedAt(frames[..|frames| - 1], if i < |frames| - 1 then i else 0); }
  }

  // The net device: one rx event flushes the backlog, then moves every frame the tap has.
  class NetWorker {
    const rx: RxRing<Frame>

    ghost predicate Valid()
      reads this, rx
    {
      rx.Valid() && rx.limit == NET_BACKLOG_MAX
    }

    constructor ()
      ensures Valid() && fresh(rx) && rx.trace == []
    {
      rx := new RxRing<Frame>(NET_BACKLOG_MAX);
    }

    // One frame from the tap, behind its header.
    method TakeFrame(frame: Frame) returns (placed: bool)
      requires Valid()
      modifies rx
      ensures Valid() && rx.trace == old(rx.trace) + [Push(NET_HEADER + frame)]
      ensures rx.delivered == if placed then old(rx.delivered) + [NET_HEADER + frame] else old(rx.delivered)
    {
      placed := rx.PushToGuest(NET_HEADER + frame);
      PushedGrows(rx.limit, rx.trace);
      assert rx.trace[..|rx.trace| - 1] == old(rx.trace);
    }

    method TakeAll(tap: seq<Frame>) returns (any: bool)
      requires Valid()
      modifies rx
      ensures Valid() && rx.trace == old(rx.trace) + Pushes(Framed(tap))
      ensures old(rx.delivered) <= rx.delivered && (any <==> |rx.delivered| > |old(rx.delivered)|)
    {
      any := false;
      ghost var pushes: seq<Event<Frame>> := [];
      for i := 0 to |tap|
        invariant Valid() && pushes == Pushes(Framed(tap[..i])) && rx.trace == old(rx.trace) + pushes
        invariant old(rx.delivered) <= rx.delivered && (any <==> |rx.delivered| > |old(rx.delivered)|)
      {
        NextFrame(tap, i);
        ghost var next := [Push(NET_HEADER + tap[i])];
        assert old(rx.trace) + pushes + next == old(rx.trace) + (pushes + next);
        var placed := TakeFrame(tap[i]);
        pushes := pushes + next;
        if placed { any := true; }
      }
      assert tap[..|tap|] == tap;
    }

    method ProcessRx(tap: seq<Frame>) returns (signalled: bool)
      requires Valid()
      modifies rx
      ensures Valid() && rx.trace == old(rx.trace) + [Notify] + Pushes(Framed(tap))
      ensures rx.State() == Run(64, rx.trace) && |rx.backlog| <= 64
      ensures old(rx.delivered) <= rx.delivered
      ensures signalled <==> |rx.delivered| > |old(rx.delivered)|
    {
      var n := rx.DrainRxBacklog();
      var any := TakeAll(tap);
      signalled := n > 0 || any;
      RunIsFifo(rx.limit, rx.trace);
    }
  }

  function Pushes<T>(items: seq<T>): seq<Event<T>>
  {
    if items == [] then [] else Pushes(items[..|items| - 1]) + [Push(items[|items| - 1])]
  }

  lemma NextFrame(tap: seq<Frame>, i: nat)
    requires i < |tap|
    ensures Pushes(Framed(tap[..i + 1])) == Pushes(Framed(tap[..i])) + [Push(NET_HEADER + tap[i])]
  {
    assert tap[..i + 1][..i] == tap[..i];
    var frames := Framed(tap[..i]);
    assert (frames + [NET_HEADER + tap[i]])[..|frames|] == frames;
  }

  lemma PushedGrows<T>(limit: nat, trace: seq<Event<T>>)
    requires trace != [] && trace[|trace| - 1].Push?
    ensures var rx := Run(limit, trace[..|trace| - 1]);
            Run(limit, trace).delivered ==
            if rx.backlog == [] && rx.buffers > 0 then rx.delivered + [trace[|trace| - 1].item] else rx.delivered
  {
  }
}
