// The running form of the control plane: the reconcile pass over the whole table, the registry of
// connected agents, and the agent's handling of one assignment. Each is tied, machine by machine, to
// the steps of `ControlPlane`.
module ControlLoop {
  import opened Prelude
  import opened ControlPlane

  type Uid = string

  datatype Assignment = Assignment(uid: Uid, run: bool)

  datatype Entry = Entry(uid: Uid, row: Row, demand: Demand)

  function Choice(hosts: seq<HostCapacity>, d: Demand): Option<HostId>
  {
    var best := Place(hosts, d);
    if best.None? then None else Some(best.value.hostId)
  }

  // One machine's orders in a host's channel.
  function Orders(channel: seq<Assignment>, uid: Uid): seq<bool>
  {
    if channel == [] then []
    else
      var last := channel[|channel| - 1];
      Orders(channel[..|channel| - 1], uid) + (if last.uid == uid then [last.run] else [])
  }

  type Registry = map<HostId, seq<Assignment>>

  function OrdersTo(registry: Registry, h: HostId, uid: Uid): seq<bool>
  {
    if h in registry then Orders(registry[h], uid) else []
  }

  // The row after what a pass planned is written to it.
  function Acted(row: Row, plan: Plan): Row
  {
    row.(host := if plan.assign.Some? then plan.assign else row.host,
         retry := row.retry + (if plan.charge then 1 else 0))
  }

  // The row after a pass loaded it and acted on it, with nothing in between.
  function Reconciled(row: Row, choice: Option<HostId>): Row
  {
    Acted(row, PlanFor(row, choice))
  }

  // Both are one undisturbed load-and-act step of the machine, whose channel at `h` grows by `Added`
  // when that host's agent is connected.
  lemma ReconciledIsAStep(m: Machine, choice: Option<HostId>, h: HostId)
    requires m.loaded.None?
    ensures var n := Next(Next(m, Load), Act(choice, true));
            && n.row == Reconciled(m.row, choice)
            && At(n.links, h) == At(m.links, h).(orders := At(m.links, h).orders + Added(m.row, choice, h))
  {
  }

  // The orders a pass adds for one machine at one host.
  function Added(row: Row, choice: Option<HostId>, h: HostId): seq<bool>
  {
    var send := PlanFor(row, choice).send;
    if send.Some? && send.value.to == h then [send.value.run] else []
  }

  function Delivered(registry: Registry, to: HostId, a: Assignment): Registry
  {
    if to in registry then registry[to := registry[to] + [a]] else registry
  }

  lemma DeliveredOrders(registry: Registry, to: HostId, a: Assignment, h: HostId, uid: Uid)
    ensures OrdersTo(Delivered(registry, to, a), h, uid) ==
            OrdersTo(registry, h, uid) + (if h == to && h in registry && a.uid == uid then [a.run] else [])
  {
    if to in registry && h == to {
      var channel := registry[to];
      assert (channel + [a])[..|channel|] == channel;
    }
  }

  datatype Report = Report(uid: Uid, state: State)

  function Connected(registry: Registry, h: HostId): Registry
  {
    registry[h := []]
  }

  function Heard(rows: map<Uid, Row>, r: Report): map<Uid, Row>
  {
    if r.uid in rows then rows[r.uid := rows[r.uid].(observed := r.state)] else rows
  }

  // --- what a pass owes a machine -----------------------------------------------------------

  // `id` names a healthy host with the demanded vCPUs and memory free, none of which has more memory free,
  // and the last listed of those with as much.
  ghost predicate IsBestHost(hosts: seq<HostCapacity>, d: Demand, id: HostId)
  {
    exists i :: 0 <= i < |hosts| && hosts[i].hostId == id && HasRoom(hosts[i], d) && IsLargest(hosts, d, i)
  }

  predicate HasRoom(h: HostCapacity, d: Demand)
  {
    h.healthy && h.vcpusFree >= d.vcpus && h.memMibFree >= d.memMib
  }

  ghost predicate IsLargest(hosts: seq<HostCapacity>, d: Demand, i: nat)
    requires i < |hosts|
  {
    forall j :: 0 <= j < |hosts| && HasRoom(hosts[j], d) ==>
                if j > i then hosts[j].memMibFree < hosts[i].memMibFree else hosts[j].memMibFree <= hosts[i].memMibFree
  }

  predicate NoRoom(hosts: seq<HostCapacity>, d: Demand)
  {
    forall i :: 0 <= i < |hosts| ==> !HasRoom(hosts[i], d)
  }

  // A wanted machine is started if it has failed less than three times over, or is not placed, or is known
  // not to run; an unwanted one is stopped if it runs.
  predicate Starts(row: Row)
  {
    row.desired &&
    if row.observed == Failed then row.retry < 3
    else row.observed != Running && (row.host.None? || row.observed == Stopped || row.observed == Created)
  }

  predicate Stops(row: Row)
  {
    !row.desired && row.observed == Running
  }

  // The row after the pass: a retry is charged, and an unplaced machine to be started gets the best host.
  ghost predicate RightRow(row: Row, d: Demand, hosts: seq<HostCapacity>, after: Row)
  {
    && after.desired == row.desired && after.observed == row.observed
    && after.retry == row.retry + (if Starts(row) && row.observed == Failed then 1 else 0)
    && (if row.host.None? && Starts(row)
        then if NoRoom(hosts, d) then after.host.None? else after.host.Some? && IsBestHost(hosts, d, after.host.value)
        else after.host == row.host)
  }

  // The orders the pass sends to a host: a start goes where the row now says.
  function RightOrders(row: Row, after: Row, h: HostId): seq<bool>
  {
    if Starts(row) && after.host == Some(h) then [true] else if Stops(row) && row.host == Some(h) then [false] else []
  }

  lemma ChoiceIsBest(hosts: seq<HostCapacity>, d: Demand)
    ensures if Choice(hosts, d).None? then NoRoom(hosts, d)
            else !NoRoom(hosts, d) && IsBestHost(hosts, d, Choice(hosts, d).value)
  {
    if Place(hosts, d).None? {
      assert forall i :: 0 <= i < |hosts| ==> hosts[i] in hosts;
    } else {
      var i := PlaceIsLastBest(hosts, d);
      assert HasRoom(hosts[i], d) && IsLargest(hosts, d, i);
    }
  }

  lemma ReconciledIsRight(row: Row, d: Demand, hosts: seq<HostCapacity>, h: HostId)
    ensures var after := Reconciled(row, Choice(hosts, d));
            RightRow(row, d, hosts, after) && Added(row, Choice(hosts, d), h) == RightOrders(row, after, h)
  {
    ChoiceIsBest(hosts, d);
  }

  class Controller {
    var rows: map<Uid, Row>
    var demands: map<Uid, Demand>
    var hosts: seq<HostCapacity>
    var registry: Registry

    ghost predicate Valid()
      reads this
    {
      rows.Keys == demands.Keys
    }

    constructor ()
      ensures Valid() && rows == map[] && registry == map[]
    {
      rows, demands, hosts, registry := map[], map[], [], map[];
    }

    // A freshly connected agent starts with an empty stream, in place of any earlier one.
    method Connect(h: HostId)
      modifies this`registry
      ensures registry == Connected(old(registry), h)
    {
      registry := registry[h := []];
    }

    method Send(to: HostId, a: Assignment) returns (ok: bool)
      modifies this`registry
      ensures ok == (to in old(registry)) && registry == Delivered(old(registry), to, a)
    {
      if to !in registry { return false; }
      registry := registry[to := registry[to] + [a]];
      return true;
    }

    // An agent's report replaces the observed state; an unknown uid changes nothing.
    method ReportEvent(uid: Uid, state: State)
      requires Valid()
      modifies this`rows
      ensures Valid() && rows == Heard(old(rows), Report(uid, state))
    {
      if uid in rows { rows := rows[uid := rows[uid].(observed := state)]; }
    }

    // What the pass does about one machine of its list. The list may be stale; writes to a row that
    // is gone do nothing.
    method Reconcile(m: Entry)
      requires Valid()
      modifies this`rows, this`registry
      ensures Valid() && Table(rows, registry) == PassOne(old(Table(rows, registry)), m, hosts)
      ensures exists after :: Follows(old(Table(rows, registry)), m, hosts, after, Table(rows, registry))
    {
      ghost var after := PassOneIsRight(Table(rows, registry), m, hosts);
      Decided(m);
      assert Follows(old(Table(rows, registry)), m, hosts, after, Table(rows, registry));
    }

    // The branches for one machine.
    method Decided(m: Entry)
      requires Valid()
      modifies this`rows, this`registry
      ensures Valid() && Table(rows, registry) == PassOne(old(Table(rows, registry)), m, hosts)
    {
      var action := Decide(m.row.desired, false, Observed(m.row.observed, m.row.host.Some?, m.row.retry), MAX_RETRIES);
      if action == Retry && m.uid in rows {
        rows := rows[m.uid := rows[m.uid].(retry := rows[m.uid].retry + 1)];
      }
      if action == AssignAndStart || action == Retry {
        var host := m.row.host;
        if host.None? {
          var best := Place(hosts, m.demand);
          if best.Some? { host := Some(best.value.hostId); }
        }
        if host.Some? {
          if m.row.host != host && m.uid in rows {
            rows := rows[m.uid := rows[m.uid].(host := host)];
          }
          var _ := Send(host.value, Assignment(m.uid, true));
        }
      } else if action == Stop {
        if m.row.host.Some? {
          var _ := Send(m.row.host.value, Assignment(m.uid, false));
        }
      }
    }

    function EntryOf(u: Uid): Entry
      requires Valid() && u in rows
      reads this
    {
      Entry(u, rows[u], demands[u])
    }

    // The table as a list, in some order.
    method ListAll() returns (machines: seq<Entry>)
      requires Valid()
      ensures forall i :: 0 <= i < |machines| ==>
                machines[i].uid in rows && machines[i] == EntryOf(machines[i].uid)
      ensures forall u :: u in rows ==> exists i :: 0 <= i < |machines| && machines[i].uid == u
      ensures forall i, j :: 0 <= i < j < |machines| ==> machines[i].uid != machines[j].uid
    {
      machines := [];
      var todo := rows.Keys;
      while todo != {}
        invariant todo <= rows.Keys
        invariant forall i :: 0 <= i < |machines| ==>
                    machines[i].uid in rows && machines[i].uid !in todo && machines[i] == EntryOf(machines[i].uid)
        invariant forall u :: u in rows && u !in todo ==> exists i :: 0 <= i < |machines| && machines[i].uid == u
        invariant forall i, j :: 0 <= i < j < |machines| ==> machines[i].uid != machines[j].uid
        decreases |todo|
      {
        var u :| u in todo;
        ghost var before := machines;
        machines := machines + [EntryOf(u)];
        assert machines[|before|].uid == u;
        assert forall i :: 0 <= i < |before| ==> machines[i] == before[i];
        todo := todo - {u};
      }
    }

    // One pass: every machine takes exactly one load-and-act step, whatever order the table is read
    // in, and each connected channel gains that machine's order, if any, and nothing else of its.
    method ReconcileOnce() returns (ghost listing: seq<Entry>)
      requires Valid()
      modifies this`rows, this`registry
      ensures Listed(old(Table(rows, registry)), listing)
      ensures Table(rows, registry) == Pass(old(Table(rows, registry)), listing, hosts)
      ensures Valid() && rows.Keys == old(rows).Keys && registry.Keys == old(registry).Keys
      ensures forall u :: u in rows ==> RightRow(old(rows)[u], demands[u], hosts, rows[u])
      ensures forall u, h :: u in rows && h in registry ==>
                OrdersTo(registry, h, u) == OrdersTo(old(registry), h, u) + RightOrders(old(rows)[u], rows[u], h)
    {
      var machines := ListAll();
      listing := machines;
      ghost var before := Table(rows, registry);
      ActOnAll(machines);
      PassIsRight(before, machines, hosts, demands);
    }

    // What the controller is told and does over time: ticks of the loop, connecting agents, reports.
    // `listings` are the lists of the table its passes went through.
    method Serve(happenings: seq<Happening>) returns (ghost listings: seq<seq<Entry>>)
      requires Valid()
      modifies this`rows, this`registry
      ensures Valid() && Table(rows, registry) == TableAfter(old(Table(rows, registry)), happenings, listings, hosts)
      ensures ListedAll(old(Table(rows, registry)), happenings, listings, hosts)
    {
      ghost var before := Table(rows, registry);
      listings := [];
      for i := 0 to |happenings|
        invariant Valid() && Table(rows, registry) == TableAfter(before, happenings[..i], listings, hosts)
        invariant ListedAll(before, happenings[..i], listings, hosts)
      {
        ghost var listing: seq<Entry> := [];
        match happenings[i] {
          case Ticks => listing := ReconcileOnce();
          case Connects(h) => Connect(h);
          case Reports(r) => ReportEvent(r.uid, r.state);
        }
        OneMoreHappening(before, happenings, listings, hosts, i, listing);
        listings := listings + [listing];
      }
      assert happenings[..|happenings|] == happenings;
    }

    method ActOnAll(machines: seq<Entry>)
      requires Valid() && Listed(Table(rows, registry), machines)
      modifies this`rows, this`registry
      ensures Valid() && Table(rows, registry) == Pass(old(Table(rows, registry)), machines, hosts)
    {
      ghost var before := Table(rows, registry);
      for i := 0 to |machines|
        invariant Valid() && Table(rows, registry) == Pass(before, machines[..i], hosts)
      {
        ListedPrefix(before, machines, i);
        PassRow(before, machines[..i], hosts, machines[i].uid, i);
        PassKeys(before, machines[..i], hosts);
        Reconcile(machines[i]);
        assert machines[..i + 1][..i] == machines[..i];
      }
      assert machines[..|machines|] == machines;
    }
  }

  // --- the controller over time -----------------------------------------------------------

  datatype Happening = Ticks | Connects(host: HostId) | Reports(report: Report)

  function TableStep(t: Table, e: Happening, listing: seq<Entry>, hosts: seq<HostCapacity>): Table
  {
    match e
    case Ticks => Pass(t, listing, hosts)
    case Connects(h) => t.(registry := Connected(t.registry, h))
    case Reports(r) => t.(rows := Heard(t.rows, r))
  }

  function TableAfter(t: Table, happenings: seq<Happening>, listings: seq<seq<Entry>>, hosts: seq<HostCapacity>): Table
  {
    if happenings == [] || |listings| != |happenings| then t
    else
      var n := |happenings| - 1;
      TableStep(TableAfter(t, happenings[..n], listings[..n], hosts), happenings[n], listings[n], hosts)
  }

  // Each pass went through the table as it was when the pass began.
  ghost predicate ListedAll(t: Table, happenings: seq<Happening>, listings: seq<seq<Entry>>, hosts: seq<HostCapacity>)
  {
    |listings| == |happenings| &&
    (happenings == [] ||
     var n := |happenings| - 1;
     && ListedAll(t, happenings[..n], listings[..n], hosts)
     && (happenings[n].Ticks? ==> Listed(TableAfter(t, happenings[..n], listings[..n], hosts), listings[n])))
  }

  lemma OneMoreHappening(t: Table, happenings: seq<Happening>, listings: seq<seq<Entry>>, hosts: seq<HostCapacity>,
                         i: nat, listing: seq<Entry>)
    requires i < |happenings| && ListedAll(t, happenings[..i], listings, hosts)
    requires happenings[i].Ticks? ==> Listed(TableAfter(t, happenings[..i], listings, hosts), listing)
    ensures ListedAll(t, happenings[..i + 1], listings + [listing], hosts)
    ensures TableAfter(t, happenings[..i + 1], listings + [listing], hosts) ==
            TableStep(TableAfter(t, happenings[..i], listings, hosts), happenings[i], listing, hosts)
  {
    assert happenings[..i + 1][..i] == happenings[..i] && (listings + [listing])[..i] == listings;
  }

  lemma PassIsRight(t: Table, machines: seq<Entry>, hosts: seq<HostCapacity>, demands: map<Uid, Demand>)
    requires Listed(t, machines) && t.rows.Keys == demands.Keys
    requires forall i :: 0 <= i < |machines| ==> machines[i].demand == demands[machines[i].uid]
    requires forall u :: u in t.rows ==> exists i :: 0 <= i < |machines| && machines[i].uid == u
    ensures var p := Pass(t, machines, hosts);
            && p.rows.Keys == t.rows.Keys && p.registry.Keys == t.registry.Keys
            && (forall u :: u in t.rows ==> RightRow(t.rows[u], demands[u], hosts, p.rows[u]))
            && (forall u, h :: u in t.rows && h in t.registry ==>
                  OrdersTo(p.registry, h, u) == OrdersTo(t.registry, h, u) + RightOrders(t.rows[u], p.rows[u], h))
  {
    var p := Pass(t, machines, hosts);
    PassIsReconcile(t, machines, hosts, demands);
    forall u | u in t.rows ensures RightRow(t.rows[u], demands[u], hosts, p.rows[u]) {
      ReconciledIsRight(t.rows[u], demands[u], hosts, "");
    }
    forall u, h | u in t.rows && h in t.registry
      ensures OrdersTo(p.registry, h, u) == OrdersTo(t.registry, h, u) + RightOrders(t.rows[u], p.rows[u], h)
    {
      ReconciledIsRight(t.rows[u], demands[u], hosts, h);
    }
  }

  lemma PassIsReconcile(t: Table, machines: seq<Entry>, hosts: seq<HostCapacity>, demands: map<Uid, Demand>)
    requires Listed(t, machines) && t.rows.Keys == demands.Keys
    requires forall i :: 0 <= i < |machines| ==> machines[i].demand == demands[machines[i].uid]
    requires forall u :: u in t.rows ==> exists i :: 0 <= i < |machines| && machines[i].uid == u
    ensures var p := Pass(t, machines, hosts);
            && p.rows.Keys == t.rows.Keys && p.registry.Keys == t.registry.Keys
            && (forall u :: u in t.rows ==> p.rows[u] == Reconciled(t.rows[u], Choice(hosts, demands[u])))
            && (forall u, h :: u in t.rows && h in t.registry ==>
                  OrdersTo(p.registry, h, u) ==
                      OrdersTo(t.registry, h, u) + Added(t.rows[u], Choice(hosts, demands[u]), h))
  {
    var p := Pass(t, machines, hosts);
    PassKeys(t, machines, hosts);
    forall u | u in t.rows ensures p.rows[u] == Reconciled(t.rows[u], Choice(hosts, demands[u])) {
      var i :| 0 <= i < |machines| && machines[i].uid == u;
      PassRow(t, machines, hosts, u, i);
    }
    forall u, h | u in t.rows && h in t.registry
      ensures OrdersTo(p.registry, h, u) == OrdersTo(t.registry, h, u) + Added(t.rows[u], Choice(hosts, demands[u]), h)
    {
      var i :| 0 <= i < |machines| && machines[i].uid == u;
      PassOrders(t, machines, hosts, h, u, i);
    }
  }

  datatype Table = Table(rows: map<Uid, Row>, registry: Registry)

  function PassOne(t: Table, m: Entry, hosts: seq<HostCapacity>): Table
  {
    var choice := Choice(hosts, m.demand);
    var send := PlanFor(m.row, choice).send;
    Table(if m.uid in t.rows then t.rows[m.uid := Acted(t.rows[m.uid], PlanFor(m.row, choice))] else t.rows,
          if send.None? then t.registry else Delivered(t.registry, send.value.to, Assignment(m.uid, send.value.run)))
  }

  // What the pass does about one entry of its list, which may be stale: the entry's row would become `after`,
  // and those changes are made to the stored row; the entry's orders are sent, and other machines see nothing.
  ghost predicate Follows(t: Table, m: Entry, hosts: seq<HostCapacity>, after: Row, v: Table)
  {
    && RightRow(m.row, m.demand, hosts, after)
    && v.rows.Keys == t.rows.Keys && v.registry.Keys == t.registry.Keys
    && (forall u :: u in t.rows ==>
          if u != m.uid then v.rows[u] == t.rows[u]
          else v.rows[u] == t.rows[u].(host := if after.host == m.row.host then t.rows[u].host else after.host,
                                       retry := t.rows[u].retry + after.retry - m.row.retry))
    && (forall u, h :: h in t.registry ==>
          OrdersTo(v.registry, h, u) ==
          OrdersTo(t.registry, h, u) + (if u == m.uid then RightOrders(m.row, after, h) else []))
  }

  lemma PassOneIsRight(t: Table, m: Entry, hosts: seq<HostCapacity>) returns (after: Row)
    ensures Follows(t, m, hosts, after, PassOne(t, m, hosts))
  {
    after := Reconciled(m.row, Choice(hosts, m.demand));
    ReconciledIsRight(m.row, m.demand, hosts, "");
    var v := PassOne(t, m, hosts);
    forall u, h | h in t.registry
      ensures OrdersTo(v.registry, h, u) ==
              OrdersTo(t.registry, h, u) + (if u == m.uid then RightOrders(m.row, after, h) else [])
    {
      ReconciledIsRight(m.row, m.demand, hosts, h);
      OrdersStep(t.registry, m, hosts, h, u);
    }
  }

  function Pass(t: Table, machines: seq<Entry>, hosts: seq<HostCapacity>): Table
  {
    if machines == [] then t
    else PassOne(Pass(t, machines[..|machines| - 1], hosts), machines[|machines| - 1], hosts)
  }

  // Entries of the table, each once.
  ghost predicate Listed(t: Table, machines: seq<Entry>)
  {
    && (forall i :: 0 <= i < |machines| ==> machines[i].uid in t.rows && t.rows[machines[i].uid] == machines[i].row)
    && (forall i, j :: 0 <= i < j < |machines| ==> machines[i].uid != machines[j].uid)
  }

  lemma ListedPrefix(t: Table, machines: seq<Entry>, n: nat)
    requires Listed(t, machines) && n <= |machines|
    ensures Listed(t, machines[..n])
    ensures n < |machines| ==> forall j :: 0 <= j < n ==> machines[..n][j].uid != machines[n].uid
  {
  }

  lemma {:induction false} PassKeys(t: Table, machines: seq<Entry>, hosts: seq<HostCapacity>)
    requires Listed(t, machines)
    ensures Pass(t, machines, hosts).rows.Keys == t.rows.Keys
    ensures Pass(t, machines, hosts).registry.Keys == t.registry.Keys
  {
    if machines != [] {
      ListedPrefix(t, machines, |machines| - 1);
      PassKeys(t, machines[..|machines| - 1], hosts);
    }
  }

  // A machine's row after the pass: reconciled if it is the `i`-th entry, as it was if it is none.
  lemma {:induction false} PassRow(t: Table, machines: seq<Entry>, hosts: seq<HostCapacity>, u: Uid, i: nat)
    requires Listed(t, machines) && u in t.rows
    requires if i < |machines| then machines[i].uid == u else forall j :: 0 <= j < |machines| ==> machines[j].uid != u
    ensures u in Pass(t, machines, hosts).rows
    ensures Pass(t, machines, hosts).rows[u] ==
            if i < |machines| then Reconciled(t.rows[u], Choice(hosts, machines[i].demand)) else t.rows[u]
  {
    if machines != [] {
      var n := |machines| - 1;
      ListedPrefix(t, machines, n);
      PassKeys(t, machines[..n], hosts);
      PassRow(t, machines[..n], hosts, u, if i < n then i else n);
    }
  }

  lemma {:induction false} PassOrders(t: Table, machines: seq<Entry>, hosts: seq<HostCapacity>, h: HostId, u: Uid,
                                      i: nat)
    requires Listed(t, machines) && h in t.registry
    requires if i < |machines| then machines[i].uid == u else forall j :: 0 <= j < |machines| ==> machines[j].uid != u
    ensures OrdersTo(Pass(t, machines, hosts).registry, h, u) == OrdersTo(t.registry, h, u) +
            (if i < |machines| then Added(machines[i].row, Choice(hosts, machines[i].demand), h) else [])
  {
    if machines != [] {
      var n := |machines| - 1;
      ListedPrefix(t, machines, n);
      PassKeys(t, machines[..n], hosts);
      OrdersStep(Pass(t, machines[..n], hosts).registry, machines[n], hosts, h, u);
      PassOrders(t, machines[..n], hosts, h, u, if i < n then i else n);
    }
  }

  lemma OrdersStep(registry: Registry, m: Entry, hosts: seq<HostCapacity>, h: HostId, u: Uid)
    requires h in registry
    ensures var send := PlanFor(m.row, Choice(hosts, m.demand)).send;
            var after := if send.None? then registry
                         else Delivered(registry, send.value.to, Assignment(m.uid, send.value.run));
            OrdersTo(after, h, u) ==
                OrdersTo(registry, h, u) + (if u == m.uid then Added(m.row, Choice(hosts, m.demand), h) else [])
  {
    var send := PlanFor(m.row, Choice(hosts, m.demand)).send;
    if send.Some? { DeliveredOrders(registry, send.value.to, Assignment(m.uid, send.value.run), h, u); }
  }

  // --- the agent ---------------------------------------------------------------------------

  function ReportsOf(uid: Uid, states: seq<State>): seq<Report>
  {
    if states == [] then [] else [Report(uid, states[0])] + ReportsOf(uid, states[1..])
  }

  datatype AgentState = AgentState(records: map<Uid, Record>, workers: multiset<Uid>, reports: seq<Report>)

  function RecordIn(s: AgentState, uid: Uid): Record
  {
    if uid in s.records then s.records[uid] else Absent
  }

  // The protocol's step, taken by one machine of an agent that has many.
  function HandledBy(s: AgentState, a: Assignment, boots: bool): AgentState
  {
    var after := Handled(Link([a.run], RecordIn(s, a.uid), s.workers[a.uid], []), boots);
    AgentState(if after.record == Absent then s.records else s.records[a.uid := after.record],
               s.workers[a.uid := after.workers],
               s.reports + ReportsOf(a.uid, after.reports))
  }

  lemma OneReport(uid: Uid, state: State)
    ensures ReportsOf(uid, [] + [state]) == [Report(uid, state)]
  {
    var none: seq<State> := [];
    assert none + [state] == [state] && [state][1..] == [];
  }

  // What the step comes to, case by case.
  lemma HandledCases(s: AgentState, uid: Uid, boots: bool)
    ensures var t := HandledBy(s, Assignment(uid, true), boots);
            if RecordIn(s, uid) == Up then t == s.(records := s.records[uid := Up])
            else if boots then
              t == AgentState(s.records[uid := Up], s.workers[uid := s.workers[uid] + 1],
                              s.reports + [Report(uid, Running)])
            else t == s.(records := t.records, reports := s.reports + [Report(uid, Failed)]) &&
                 (t.records == if RecordIn(s, uid) == Down then s.records[uid := Down] else s.records)
    ensures var t := HandledBy(s, Assignment(uid, false), boots);
            if RecordIn(s, uid) == Absent then t == s
            else t == AgentState(s.records[uid := Down],
                                 if RecordIn(s, uid) == Up then s.workers[uid := OneLess(s.workers[uid])]
                                 else s.workers,
                                 s.reports + [Report(uid, Stopped)])
  {
    assert s.workers[uid := s.workers[uid]] == s.workers;
    assert s.reports + [] == s.reports;
    OneReport(uid, Running);
    OneReport(uid, Failed);
    OneReport(uid, Stopped);
  }

  class Agent {
    var records: map<Uid, Record>
    var workers: multiset<Uid>
    var reports: seq<Report>

    function Value(): AgentState
      reads this
    {
      AgentState(records, workers, reports)
    }

    function RecordOf(uid: Uid): Record
      reads this
    {
      RecordIn(Value(), uid)
    }

    // `Absent` is never stored, and only a machine recorded as running has a worker.
    ghost predicate Valid()
      reads this
    {
      && (forall u :: u in records ==> records[u] != Absent)
      && (forall u :: workers[u] <= if RecordOf(u) == Up then 1 else 0)
    }

    constructor ()
      ensures Valid() && Value() == AgentState(map[], multiset{}, [])
    {
      records, workers, reports := map[], multiset{}, [];
    }

    // `boots` is whether booting would succeed. Duplicate starts never start a second worker.
    method HandleAssignment(a: Assignment, boots: bool)
      requires Valid()
      modifies this
      ensures Valid() && Value() == HandledBy(old(Value()), a, boots)
    {
      if a.run { Start(a.uid, boots); } else { Halt(a.uid); }
    }

    method Start(uid: Uid, boots: bool)
      requires Valid()
      modifies this
      ensures Valid() && Value() == HandledBy(old(Value()), Assignment(uid, true), boots)
    {
      HandledCases(Value(), uid, boots);
      if RecordOf(uid) == Up {
        assert records[uid := Up] == records;
        return;
      }
      assert RecordOf(uid) == Down ==> records[uid := Down] == records;
      if boots {
        records := records[uid := Up];
        workers := workers[uid := workers[uid] + 1];
        reports := reports + [Report(uid, Running)];
      } else {
        reports := reports + [Report(uid, Failed)];
      }
    }

    method Halt(uid: Uid)
      requires Valid()
      modifies this
      ensures Valid() && forall boots :: Value() == HandledBy(old(Value()), Assignment(uid, false), boots)
    {
      HandledCases(Value(), uid, true);
      HandledCases(Value(), uid, false);
      if RecordOf(uid) == Absent { return; }
      if RecordOf(uid) == Up { workers := workers[uid := OneLess(workers[uid])]; }
      records := records[uid := Down];
      reports := reports + [Report(uid, Stopped)];
    }
  }
}
