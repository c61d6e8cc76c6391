// Guest addresses and clone links on one host: the /24 pool, the /30 veth blocks, and the machine
// registry whose commands hand them out.
module Addresses {
  import opened Prelude

  type u8 = x: int | 0 <= x < 0x100

  datatype Addr = Addr(a: u8, b: u8, c: u8, d: u8)

  function Number(x: Addr): nat
  {
    x.a * 0x100_0000 + x.b * 0x1_0000 + x.c * 0x100 + x.d
  }

  // --- the pool ------------------------------------------------------------------

  predicate UsableHost(host: int, gateway: u8)
  {
    1 <= host <= 254 && host != gateway
  }

  function UsableBelow(bound: nat, gateway: u8): set<int>
  {
    set h | 0 <= h < bound && UsableHost(h, gateway)
  }

  function Usable(gateway: u8): set<int>
  {
    UsableBelow(256, gateway)
  }

  lemma {:induction false} CountBelow(bound: nat, gateway: u8)
    requires 1 <= bound <= 255 && 1 <= gateway <= 254
    ensures |UsableBelow(bound, gateway)| == bound - 1 - (if gateway < bound then 1 else 0)
  {
    if bound == 1 {
      assert UsableBelow(1, gateway) == {};
    } else {
      CountBelow(bound - 1, gateway);
      var last := if bound - 1 == gateway then {} else {bound - 1};
      assert UsableBelow(bound, gateway) == UsableBelow(bound - 1, gateway) + last;
    }
  }

  // A /24 less its network, broadcast and gateway addresses.
  lemma UsableCount(gateway: u8)
    requires 1 <= gateway <= 254
    ensures |Usable(gateway)| == 253
  {
    CountBelow(255, gateway);
    assert Usable(gateway) == UsableBelow(255, gateway);
  }

  // The lowest usable host from `from` on that is not taken.
  function NextFree(taken: set<int>, gateway: u8, from: nat): Option<int>
    decreases 255 - from
  {
    if from >= 255 then None
    else if UsableHost(from, gateway) && from !in taken then Some(from)
    else NextFree(taken, gateway, from + 1)
  }

  function Next(taken: set<int>, gateway: u8): Option<int>
  {
    NextFree(taken, gateway, 1)
  }

  ghost predicate LowestFrom(taken: set<int>, gateway: u8, from: nat, next: Option<int>)
  {
    && (next.Some? ==> next.value >= from && next.value in Usable(gateway) - taken)
    && (forall h :: h in Usable(gateway) && h >= from && (next.None? || h < next.value) ==> h in taken)
  }

  lemma {:induction false} NextIsLowest(taken: set<int>, gateway: u8, from: nat)
    ensures LowestFrom(taken, gateway, from, NextFree(taken, gateway, from))
    decreases 255 - from
  {
    if from < 255 && !(UsableHost(from, gateway) && from !in taken) { NextIsLowest(taken, gateway, from + 1); }
  }

  // A released host is the next one handed out, unless a lower one was free already.
  lemma ReleasedIsNext(taken: set<int>, gateway: u8, h: int)
    requires h in Usable(gateway)
    ensures var before := Next(taken, gateway);
            Next(taken - {h}, gateway) == if before.None? || h <= before.value then Some(h) else before
  {
    NextIsLowest(taken, gateway, 1);
    NextIsLowest(taken - {h}, gateway, 1);
  }

  // The pool after `n` requests, of which those it cannot meet change nothing.
  function Drawn(taken: set<int>, gateway: u8, n: nat): set<int>
  {
    if n == 0 then taken
    else
      var before := Drawn(taken, gateway, n - 1);
      var next := Next(before, gateway);
      if next.None? then before else before + {next.value}
  }

  // A fresh pool meets exactly 253 requests.
  lemma {:induction false} PoolExhausts(gateway: u8, n: nat)
    requires 1 <= gateway <= 254
    ensures Drawn({}, gateway, n) <= Usable(gateway) && |Drawn({}, gateway, n)| == if n < 253 then n else 253
    ensures Next(Drawn({}, gateway, n), gateway).Some? <==> n < 253
  {
    if n > 0 { PoolExhausts(gateway, n - 1); }
    var drawn := Drawn({}, gateway, n);
    UsableCount(gateway);
    if n > 0 { NextIsLowest(Drawn({}, gateway, n - 1), gateway, 1); }
    NextIsLowest(drawn, gateway, 1);
    assert Usable(gateway) == drawn + (Usable(gateway) - drawn);
  }

  lemma DrawnShift(taken: set<int>, gateway: u8, n: nat)
    requires Next(taken, gateway).Some?
    ensures Drawn(taken, gateway, n + 1) == Drawn(taken + {Next(taken, gateway).value}, gateway, n)
  {
    if n > 0 { DrawnShift(taken, gateway, n - 1); }
  }

  function FreeBelow(taken: set<int>, gateway: u8, h: nat): set<int>
  {
    UsableBelow(h, gateway) - taken
  }

  // Drawing the lowest free host leaves one fewer below any other.
  lemma DrawBelow(taken: set<int>, gateway: u8, h: nat)
    requires h in Usable(gateway) && h !in taken
    ensures var next := Next(taken, gateway);
            && next.Some? && next.value <= h
            && (next.value == h <==> FreeBelow(taken, gateway, h) == {})
            && (next.value < h ==> |FreeBelow(taken + {next.value}, gateway, h)| == |FreeBelow(taken, gateway, h)| - 1)
  {
    NextIsLowest(taken, gateway, 1);
    var next := Next(taken, gateway);
    if next.value < h {
      assert next.value in FreeBelow(taken, gateway, h);
      assert FreeBelow(taken + {next.value}, gateway, h) == FreeBelow(taken, gateway, h) - {next.value};
    }
  }

  // A released host comes back, after exactly as many requests as there are free hosts below it.
  lemma {:induction false} ReleasedComesBack(taken: set<int>, gateway: u8, h: nat)
    requires h in Usable(gateway) && h !in taken
    ensures Next(Drawn(taken, gateway, |FreeBelow(taken, gateway, h)|), gateway) == Some(h)
    decreases |FreeBelow(taken, gateway, h)|
  {
    DrawBelow(taken, gateway, h);
    var next := Next(taken, gateway);
    if next.value < h {
      ReleasedComesBack(taken + {next.value}, gateway, h);
      DrawnShift(taken, gateway, |FreeBelow(taken, gateway, h)| - 1);
    }
  }

  // --- the pool over time ----------------------------------------------------------------

  datatype PoolOp = Take | Keep(addr: Addr) | Free(addr: Addr)

  function PoolStep(taken: set<int>, gateway: u8, op: PoolOp): set<int>
  {
    match op
    case Take => if Next(taken, gateway).Some? then taken + {Next(taken, gateway).value} else taken
    case Keep(addr) => taken + {addr.d as int}
    case Free(addr) => taken - {addr.d as int}
  }

  function PoolAfter(taken: set<int>, gateway: u8, ops: seq<PoolOp>): set<int>
  {
    if ops == [] then taken else PoolStep(PoolAfter(taken, gateway, ops[..|ops| - 1]), gateway, ops[|ops| - 1])
  }

  // What the `i`-th request is given.
  function GivenAt(taken: set<int>, gateway: u8, ops: seq<PoolOp>, i: nat): Option<int>
    requires i < |ops|
  {
    if ops[i].Take? then Next(PoolAfter(taken, gateway, ops[..i]), gateway) else None
  }

  lemma PoolSnoc(taken: set<int>, gateway: u8, ops: seq<PoolOp>, i: nat)
    requires i < |ops|
    ensures PoolAfter(taken, gateway, ops[..i + 1]) == PoolStep(PoolAfter(taken, gateway, ops[..i]), gateway, ops[i])
  {
    assert ops[..i + 1][..i] == ops[..i];
  }

  // A host stays taken until it is freed.
  lemma {:induction false} StaysTaken(taken: set<int>, gateway: u8, ops: seq<PoolOp>, i: nat, j: nat, h: int)
    requires i <= j <= |ops| && h in PoolAfter(taken, gateway, ops[..i])
    requires forall k :: i <= k < j ==> !(ops[k].Free? && ops[k].addr.d == h)
    ensures h in PoolAfter(taken, gateway, ops[..j])
    decreases j - i
  {
    if i < j {
      StaysTaken(taken, gateway, ops, i, j - 1, h);
      PoolSnoc(taken, gateway, ops, j - 1);
    }
  }

  // Over any use of a pool, the same host is never given out twice without being freed in between.
  lemma GivenOnce(taken: set<int>, gateway: u8, ops: seq<PoolOp>, i: nat, j: nat)
    requires i < j < |ops| && GivenAt(taken, gateway, ops, i).Some?
    requires GivenAt(taken, gateway, ops, j) == GivenAt(taken, gateway, ops, i)
    ensures exists k :: i < k < j && ops[k].Free? && ops[k].addr.d == GivenAt(taken, gateway, ops, i).value
  {
    var h := GivenAt(taken, gateway, ops, i).value;
    PoolSnoc(taken, gateway, ops, i);
    NextIsLowest(PoolAfter(taken, gateway, ops[..j]), gateway, 1);
    if forall k :: i < k < j ==> !(ops[k].Free? && ops[k].addr.d == h) {
      StaysTaken(taken, gateway, ops, i + 1, j, h);
    }
  }

  class Ipam {
    const base: (u8, u8, u8)
    const gatewayHost: u8
    var taken: set<int>

    constructor (base: (u8, u8, u8), gatewayHost: u8)
      ensures this.base == base && this.gatewayHost == gatewayHost && taken == {}
    {
      this.base, this.gatewayHost, taken := base, gatewayHost, {};
    }

    function At(host: u8): Addr { Addr(base.0, base.1, base.2, host) }

    // The lowest usable address that is free; failure means every usable address is taken.
    method Allocate() returns (addr: Option<Addr>)
      modifies this`taken
      ensures addr.None? <==> Usable(gatewayHost) <= old(taken)
      ensures Next(old(taken), gatewayHost) == if addr.None? then None else Some(addr.value.d as int)
      ensures addr.None? ==> taken == old(taken)
      ensures addr.Some? ==>
                && addr.value == At(addr.value.d) && addr.value.d in Usable(gatewayHost) - old(taken)
                && (forall h :: h in Usable(gatewayHost) && h < addr.value.d ==> h in old(taken))
                && taken == old(taken) + {addr.value.d as int}
    {
      NextIsLowest(taken, gatewayHost, 1);
      for host := 1 to 255
        invariant taken == old(taken)
        invariant forall h :: h in Usable(gatewayHost) && h < host ==> h in taken
      {
        if host != gatewayHost && host !in taken {
          taken := taken + {host};
          return Some(At(host));
        }
      }
      return None;
    }

    method Reserve(addr: Addr)
      modifies this`taken
      ensures taken == old(taken) + {addr.d as int}
    {
      taken := taken + {addr.d as int};
    }

    method Release(addr: Addr)
      modifies this`taken
      ensures taken == old(taken) - {addr.d as int}
    {
      taken := taken - {addr.d as int};
    }

    // Any use of the pool: what it gives and what it holds are those of the specification.
    method Serve(ops: seq<PoolOp>) returns (given: seq<Option<Addr>>)
      modifies this`taken
      ensures taken == PoolAfter(old(taken), gatewayHost, ops) && |given| == |ops|
      ensures forall i :: 0 <= i < |ops| ==> Gives(given[i], GivenAt(old(taken), gatewayHost, ops, i))
    {
      given := [];
      for i := 0 to |ops|
        invariant taken == PoolAfter(old(taken), gatewayHost, ops[..i]) && |given| == i
        invariant forall j :: 0 <= j < i ==> Gives(given[j], GivenAt(old(taken), gatewayHost, ops, j))
      {
        PoolSnoc(old(taken), gatewayHost, ops, i);
        var addr := None;
        match ops[i] {
          case Take => addr := Allocate();
          case Keep(a) => Reserve(a);
          case Free(a) => Release(a);
        }
        given := given + [addr];
      }
      assert ops[..|ops|] == ops;
    }

    // The address given is the host of the specification in this pool's network.
    predicate Gives(addr: Option<Addr>, host: Option<int>)
    {
      if host.None? then addr.None? else addr.Some? && addr.value == At(addr.value.d) && addr.value.d == host.value
    }
  }

  // --- veth links ------------------------------------------------------------------

  const VETH_SLOTS: nat := 16384

  datatype VethLink = VethLink(hostAddr: Addr, netnsAddr: Addr)

  // The /30 of a clone slot: None when the slot lies outside the /16. Octets are written out as
  // integers here, so that they fit a byte is part of what is proved.
  function ForIndex(index: u32): Option<VethLink>
  {
    var offset := index * 4;
    if offset >= TWO32 || offset >= 65536 then None
    else
      var third := offset / 0x100;
      var octet := offset % 0x100;
      Some(VethLink(Addr(10, 201, third, octet + 1), Addr(10, 201, third, octet + 2)))
  }

  // The network address of a prefix: the host bits cleared.
  function NetworkAddr(x: Addr, hostBits: nat): int
  {
    Number(x) - Number(x) % Pow2(hostBits)
  }

  function Pow2(n: nat): (p: nat)
    ensures p > 0
  {
    if n == 0 then 1 else 2 * Pow2(n - 1)
  }

  const VETH_NET: nat := 10 * 0x100_0000 + 201 * 0x1_0000

  predicate InBlock(x: nat, link: VethLink)
  {
    NetworkAddr(link.hostAddr, 2) <= x < NetworkAddr(link.hostAddr, 2) + 4
  }

  // Slot `i` owns the four addresses from 10.201.0.0 + 4i on; its two ends are inside, between
  // the network and the broadcast address.
  lemma LinkBlock(index: u32)
    ensures ForIndex(index).Some? <==> index < VETH_SLOTS
    ensures index < VETH_SLOTS ==>
              var link := ForIndex(index).value;
              && Number(link.hostAddr) == VETH_NET + 4 * index + 1
              && Number(link.netnsAddr) == VETH_NET + 4 * index + 2
              && NetworkAddr(link.hostAddr, 2) == NetworkAddr(link.netnsAddr, 2) == VETH_NET + 4 * index
  {
    if index < VETH_SLOTS {
      assert Pow2(2) == 2 * Pow2(1) && Pow2(1) == 2 * Pow2(0);
    }
  }

  // Blocks of different slots share no address, and none lies in the guest subnet 10.0.0.0/24.
  lemma BlocksAreDisjoint(i: u32, j: u32, x: nat)
    requires i < VETH_SLOTS && j < VETH_SLOTS
    requires InBlock(x, ForIndex(i).value)
    ensures InBlock(x, ForIndex(j).value) ==> i == j
    ensures !(10 * 0x100_0000 <= x < 10 * 0x100_0000 + 0x100)
  {
    LinkBlock(i);
    LinkBlock(j);
  }

  // --- the registry ------------------------------------------------------------------

  const GATEWAY: u8 := 1

  datatype Record = Record(ip: Option<Addr>, cloneIndex: Option<u32>)

  type Registry = map<string, Record>

  predicate GuestAddr(x: Addr)
  {
    x == Addr(10, 0, 0, x.d) && x.d in Usable(GATEWAY)
  }

  // Addresses are usable and pairwise distinct, clone slots are valid and pairwise distinct, and
  // every clone has an address.
  ghost predicate Consistent(records: Registry)
  {
    && (forall n :: n in records && records[n].ip.Some? ==> GuestAddr(records[n].ip.value))
    && (forall m, n :: m in records && n in records && m != n && records[m].ip.Some? ==> records[m].ip != records[n].ip)
    && (forall n :: n in records && records[n].cloneIndex.Some? ==>
        records[n].ip.Some? && records[n].cloneIndex.value < VETH_SLOTS)
    && (forall m, n :: m in records && n in records && m != n && records[m].cloneIndex.Some? ==>
          records[m].cloneIndex != records[n].cloneIndex)
  }

  // The last octets and the clone slots recorded under some of the names.
  ghost function HostsOf(records: Registry, names: set<string>): set<int>
  {
    set n | n in names && n in records && records[n].ip.Some? :: records[n].ip.value.d as int
  }

  ghost function SlotsOf(records: Registry, names: set<string>): set<int>
  {
    set n | n in names && n in records && records[n].cloneIndex.Some? :: records[n].cloneIndex.value as int
  }

  ghost function Hosts(records: Registry): set<int>
  {
    HostsOf(records, records.Keys)
  }

  ghost function Slots(records: Registry): set<int>
  {
    SlotsOf(records, records.Keys)
  }

  lemma HostsStep(records: Registry, names: set<string>, n: string)
    requires n in records
    ensures HostsOf(records, names + {n}) ==
            HostsOf(records, names) + (if records[n].ip.Some? then {records[n].ip.value.d as int} else {})
  {
  }

  lemma SlotsStep(records: Registry, names: set<string>, n: string)
    requires n in records
    ensures SlotsOf(records, names + {n}) ==
            SlotsOf(records, names) + (if records[n].cloneIndex.Some? then {records[n].cloneIndex.value as int} else {})
  {
  }

  datatype Failure =
    | NameTaken | NoSuchMachine | NoRecordedIp | PoolExhausted | SlotOverflow | LaunchFailed | StillRunning

  datatype Command =
    | Run(name: string, launches: bool)
    | Fork(source: string, name: string, launches: bool)
    | Remove(name: string, permitted: bool)

  predicate NeverRemoved(commands: seq<Command>, name: string)
  {
    forall i :: 0 <= i < |commands| ==> !(commands[i].Remove? && commands[i].name == name)
  }

  datatype Outcome = Created(record: Record) | Removed | Refused(why: Failure)

  predicate Branchable(records: Registry, source: string, name: string)
  {
    name !in records && source in records && records[source].ip.Some?
  }

  // The lowest number from `from` on that is not used.
  predicate IsLowest(n: int, from: int, used: set<int>)
  {
    from <= n && n !in used && forall i :: from <= i < n ==> i in used
  }

  class Store {
    var records: Registry

    constructor ()
      ensures records == map[] && Consistent(records)
    {
      records := map[];
    }

    // Reserve every recorded address in a fresh pool.
    method SeedPool(ipam: Ipam)
      requires ipam.taken == {}
      modifies ipam`taken
      ensures ipam.taken == Hosts(records)
    {
      var names := records.Keys;
      ghost var done: set<string> := {};
      while names != {}
        invariant names + done == records.Keys
        invariant ipam.taken == HostsOf(records, done)
        decreases |names|
      {
        var n :| n in names;
        names := names - {n};
        HostsStep(records, done, n);
        done := done + {n};
        if records[n].ip.Some? { ipam.Reserve(records[n].ip.value); }
      }
      assert done == records.Keys;
    }

    // The next address for a new machine; None when all of them are recorded.
    method NextAddress() returns (ip: Option<Addr>)
      ensures ip.None? <==> Usable(GATEWAY) <= Hosts(records)
      ensures ip.Some? ==>
                && GuestAddr(ip.value) && 2 <= ip.value.d <= 254 && ip.value.d !in Hosts(records)
                && forall h :: 2 <= h < ip.value.d ==> h in Hosts(records)
    {
      var ipam := new Ipam((10, 0, 0), GATEWAY);
      SeedPool(ipam);
      ip := ipam.Allocate();
    }

    // `run` and `restore`: a new machine on the bridge. `launches` is whether the host work succeeds.
    method Launch(name: string, launches: bool) returns (outcome: Outcome)
      requires Consistent(records)
      modifies this
      ensures Consistent(records)
      ensures outcome.Created? || (outcome.Refused? && records == old(records))
      ensures outcome == Refused(NameTaken) <==> name in old(records)
      ensures outcome == Refused(PoolExhausted) <==> name !in old(records) && Usable(GATEWAY) <= Hosts(old(records))
      ensures outcome.Created? <==> name !in old(records) && !(Usable(GATEWAY) <= Hosts(old(records))) && launches
      ensures outcome == Refused(LaunchFailed) <==>
                name !in old(records) && !(Usable(GATEWAY) <= Hosts(old(records))) && !launches
      ensures outcome.Created? ==>
                && records == old(records)[name := outcome.record]
                && outcome.record.ip.Some? && outcome.record.cloneIndex.None?
                && IsLowest(outcome.record.ip.value.d, 2, Hosts(old(records)))
    {
      if name in records { return Refused(NameTaken); }
      var ip := NextAddress();
      if ip.None? { return Refused(PoolExhausted); }
      if !launches { return Refused(LaunchFailed); }
      var record := Record(ip, None);
      records := records[name := record];
      return Created(record);
    }

    method UsedSlots() returns (used: set<int>)
      ensures used == Slots(records)
    {
      used := set n | n in records && records[n].cloneIndex.Some? :: records[n].cloneIndex.value as int;
    }

    // The lowest clone slot no live clone uses.
    method FreeSlot() returns (slot: nat)
      requires Consistent(records)
      ensures slot !in Slots(records) && forall i :: 0 <= i < slot ==> i in Slots(records)
      ensures slot <= |Slots(records)|
    {
      var used := UsedSlots();
      slot := 0;
      while slot in used
        invariant forall i :: 0 <= i < slot ==> i in used
        invariant slot <= |used|
        decreases |used| - slot
      {
        slot := slot + 1;
        PrefixFits(slot, used);
      }
    }

    // `branch`: a clone of a running machine, with its own address and its own veth slot.
    method Branch(source: string, name: string, launches: bool) returns (outcome: Outcome)
      requires Consistent(records)
      modifies this
      ensures Consistent(records)
      ensures outcome.Created? || (outcome.Refused? && outcome.why != SlotOverflow && records == old(records))
      ensures outcome == Refused(NameTaken) <==> name in old(records)
      ensures outcome == Refused(NoSuchMachine) <==> name !in old(records) && source !in old(records)
      ensures outcome == Refused(NoRecordedIp) <==>
                name !in old(records) && source in old(records) && old(records)[source].ip.None?
      ensures outcome == Refused(PoolExhausted) <==>
                Branchable(old(records), source, name) && Usable(GATEWAY) <= Hosts(old(records))
      ensures outcome == Refused(LaunchFailed) <==>
                Branchable(old(records), source, name) && !(Usable(GATEWAY) <= Hosts(old(records))) && !launches
      ensures outcome.Created? <==>
                Branchable(old(records), source, name) && !(Usable(GATEWAY) <= Hosts(old(records))) && launches
      ensures outcome.Created? ==>
                && records == old(records)[name := outcome.record]
                && outcome.record.ip.Some? && IsLowest(outcome.record.ip.value.d, 2, Hosts(old(records)))
                && outcome.record.cloneIndex.Some? && IsLowest(outcome.record.cloneIndex.value, 0, Slots(old(records)))
                && ForIndex(outcome.record.cloneIndex.value).Some?
    {
      if name in records { return Refused(NameTaken); }
      if source !in records { return Refused(NoSuchMachine); }
      if records[source].ip.None? { return Refused(NoRecordedIp); }
      var slot := FreeSlot();
      ClonesAreFew(records);
      assert slot <= 253;
      var ip := NextAddress();
      if ip.None? { return Refused(PoolExhausted); }
      if ForIndex(slot).None? { return Refused(SlotOverflow); }
      if !launches { return Refused(LaunchFailed); }
      var record := Record(ip, Some(slot));
      records := records[name := record];
      return Created(record);
    }

    // Whole sessions: the registry stays consistent and a machine nobody removes keeps its record.
    method Session(commands: seq<Command>)
      requires Consistent(records)
      modifies this
      ensures Consistent(records)
      ensures forall n :: n in old(records) && NeverRemoved(commands, n) ==>
              n in records && records[n] == old(records)[n]
    {
      for i := 0 to |commands|
        invariant Consistent(records)
        invariant forall n :: n in old(records) && NeverRemoved(commands, n) ==>
                  n in records && records[n] == old(records)[n]
      {
        match commands[i] {
          case Run(name, launches) => var _ := Launch(name, launches);
          case Fork(source, name, launches) => var _ := Branch(source, name, launches);
          case Remove(name, permitted) => var _ := Rm(name, permitted);
        }
      }
    }

    // `permitted` is whether the machine has ended or removal is forced.
    method Rm(name: string, permitted: bool) returns (outcome: Outcome)
      requires Consistent(records)
      modifies this
      ensures Consistent(records)
      ensures outcome == Refused(NoSuchMachine) <==> name !in old(records)
      ensures outcome.Removed? <==> name in old(records) && permitted
      ensures outcome == Refused(StillRunning) <==> name in old(records) && !permitted
      ensures records == if outcome.Removed? then old(records) - {name} else old(records)
    {
      if name !in records { return Refused(NoSuchMachine); }
      if !permitted { return Refused(StillRunning); }
      records := records - {name};
      return Removed;
    }
  }

  // Two live clones never share a slot, an address, or any address of their veth blocks, and no
  // block reaches into the guest subnet.
  lemma ClonesDoNotCollide(records: Registry, m: string, n: string, x: nat)
    requires Consistent(records) && m in records && n in records && m != n
    requires records[m].cloneIndex.Some? && records[n].cloneIndex.Some?
    ensures ForIndex(records[m].cloneIndex.value).Some? && ForIndex(records[n].cloneIndex.value).Some?
    ensures records[m].ip != records[n].ip
    ensures InBlock(x, ForIndex(records[m].cloneIndex.value).value) ==>
              && !InBlock(x, ForIndex(records[n].cloneIndex.value).value)
              && !(10 * 0x100_0000 <= x < 10 * 0x100_0000 + 0x100)
  {
    LinkBlock(records[m].cloneIndex.value);
    LinkBlock(records[n].cloneIndex.value);
    if InBlock(x, ForIndex(records[m].cloneIndex.value).value) {
      BlocksAreDisjoint(records[m].cloneIndex.value, records[n].cloneIndex.value, x);
    }
  }

  lemma SubsetIsSmaller(a: set<int>, b: set<int>)
    requires a <= b
    ensures |a| <= |b|
  {
    assert b == a + (b - a);
  }

  lemma {:induction false} PrefixFits(n: nat, s: set<int>)
    requires forall i :: 0 <= i < n ==> i in s
    ensures n <= |s|
  {
    if n > 0 { PrefixFits(n - 1, s - {n - 1}); }
  }

  // Every clone holds an address of its own, so there are at most 253 of them and the search for
  // a free slot never leaves the /16.
  lemma ClonesAreFew(records: Registry)
    requires Consistent(records)
    ensures |Slots(records)| <= |Hosts(records)| <= 253
  {
    UsableCount(GATEWAY);
    assert Hosts(records) <= Usable(GATEWAY);
    SubsetIsSmaller(Hosts(records), Usable(GATEWAY));
    SlotsByHost(records, records.Keys);
  }

  lemma {:induction false} SlotsByHost(records: Registry, names: set<string>)
    requires Consistent(records) && names <= records.Keys
    ensures |SlotsOf(records, names)| <= |HostsOf(records, names)|
  {
    if names == {} {
      assert SlotsOf(records, names) == {};
    } else {
      var n :| n in names;
      var rest := names - {n};
      assert names == rest + {n};
      SlotsByHost(records, rest);
      HostsStep(records, rest, n);
      SlotsStep(records, rest, n);
      if records[n].ip.Some? { HostIsNew(records, rest, n); }
    }
  }

  lemma HostIsNew(records: Registry, names: set<string>, n: string)
    requires Consistent(records) && n in records && n !in names && records[n].ip.Some?
    ensures records[n].ip.value.d as int !in HostsOf(records, names)
  {
  }
}
