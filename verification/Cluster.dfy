// A whole cluster: one table, one pass at a time over a stale list of it, one channel and one agent per
// host. Seen from any one machine, every run of it is a run of `ControlPlane`.
module Cluster {
  import opened Prelude
  import opened ControlPlane
  import opened ControlLoop

  // `todo` is what the pass under way has still to act on, as it read it from the table.
  datatype Cluster = Cluster(rows: map<Uid, Row>, todo: seq<Entry>, registry: Registry, agents: map<HostId, AgentState>)

  const NEW_AGENT := AgentState(map[], multiset{}, [])

  const EMPTY := Cluster(map[], [], map[], map[])

  function AgentAt(c: Cluster, h: HostId): AgentState
  {
    if h in c.agents then c.agents[h] else NEW_AGENT
  }

  datatype Step =
    | Begin(machines: seq<Entry>)
    | ActOne(hosts: seq<HostCapacity>)
    | Abort(charged: bool, hosts: seq<HostCapacity>)
    | Take(host: HostId, boots: bool)
    | Ingest(host: HostId)
    | Lose(host: HostId, at: nat)
    | Connect(host: HostId)
    | Exit(host: HostId, uid: Uid)
    | Create(uid: Uid, running: bool)
    | Desire(uid: Uid, running: bool)

  // The writes of a pass that broke off while acting on `m`.
  function Broken(rows: map<Uid, Row>, m: Entry, charged: bool, hosts: seq<HostCapacity>): map<Uid, Row>
  {
    var plan := PlanFor(m.row, Choice(hosts, m.demand));
    if m.uid in rows then rows[m.uid := Acted(rows[m.uid], plan.(charge := charged && plan.charge))] else rows
  }

  ghost function Moved(c: Cluster, s: Step): Cluster
  {
    match s
    case Begin(machines) =>
      if c.todo == [] && Listed(Table(c.rows, c.registry), machines) then c.(todo := machines) else c
    case ActOne(hosts) =>
      if c.todo == [] then c
      else
        var t := PassOne(Table(c.rows, c.registry), c.todo[0], hosts);
        c.(rows := t.rows, registry := t.registry, todo := c.todo[1..])
    case Abort(charged, hosts) =>
      if c.todo == [] then c else c.(rows := Broken(c.rows, c.todo[0], charged, hosts), todo := [])
    case Take(h, boots) =>
      if h !in c.registry || c.registry[h] == [] then c
      else
        var channel := c.registry[h];
        c.(registry := c.registry[h := channel[1..]],
           agents := c.agents[h := HandledBy(AgentAt(c, h), channel[0], boots)])
    case Ingest(h) =>
      var agent := AgentAt(c, h);
      if agent.reports == [] then c
      else
        c.(rows := Heard(c.rows, agent.reports[0]), agents := c.agents[h := agent.(reports := agent.reports[1..])])
    case Lose(h, i) =>
      var agent := AgentAt(c, h);
      if i >= |agent.reports| then c
      else c.(agents := c.agents[h := agent.(reports := agent.reports[..i] + agent.reports[i + 1..])])
    case Connect(h) => c.(registry := Connected(c.registry, h))
    case Exit(h, u) => c.(agents := c.agents[h := AgentAt(c, h).(workers := AgentAt(c, h).workers[u := 0])])
    case Create(u, running) => if u in c.rows then c else c.(rows := c.rows[u := Row(running, Created, None, 0)])
    case Desire(u, running) => if u in c.rows then c.(rows := c.rows[u := c.rows[u].(desired := running)]) else c
  }

  ghost function RunOf(c: Cluster, steps: seq<Step>): Cluster
  {
    if steps == [] then c else Moved(RunOf(c, steps[..|steps| - 1]), steps[|steps| - 1])
  }

  // --- one machine's part -----------------------------------------------------------------------

  function StatesOf(reports: seq<Report>, u: Uid): seq<State>
  {
    if reports == [] then []
    else
      var last := reports[|reports| - 1];
      StatesOf(reports[..|reports| - 1], u) + (if last.uid == u then [last.state] else [])
  }

  lemma {:induction false} StatesConcat(a: seq<Report>, b: seq<Report>, u: Uid)
    ensures StatesOf(a + b, u) == StatesOf(a, u) + StatesOf(b, u)
  {
    if b == [] {
      assert a + b == a;
    } else {
      assert (a + b)[..|a + b| - 1] == a + b[..|b| - 1];
      StatesConcat(a, b[..|b| - 1], u);
    }
  }

  lemma StatesAt(reports: seq<Report>, i: nat, u: Uid)
    requires i < |reports|
    ensures StatesOf(reports, u) == StatesOf(reports[..i], u) +
            (if reports[i].uid == u then [reports[i].state] else []) + StatesOf(reports[i + 1..], u)
  {
    var front := reports[..i + 1];
    assert reports == front + reports[i + 1..] && front[..i] == reports[..i];
    StatesConcat(front, reports[i + 1..], u);
  }

  // Without its `i`-th report: one state fewer if the report is the machine's.
  lemma StatesWithout(reports: seq<Report>, i: nat, u: Uid)
    requires i < |reports|
    ensures var states, k := StatesOf(reports, u), |StatesOf(reports[..i], u)|;
            var rest := StatesOf(reports[..i] + reports[i + 1..], u);
            if reports[i].uid == u then
              k < |states| && states[k] == reports[i].state && rest == states[..k] + states[k + 1..]
            else rest == states
  {
    StatesAt(reports, i, u);
    StatesConcat(reports[..i], reports[i + 1..], u);
    var front, back := StatesOf(reports[..i], u), StatesOf(reports[i + 1..], u);
    if reports[i].uid == u {
      var states := StatesOf(reports, u);
      assert states[..|front|] == front && states[|front| + 1..] == back;
    } else {
      assert front + [] == front;
    }
  }

  lemma FirstState(reports: seq<Report>, u: Uid)
    requires reports != []
    ensures StatesOf(reports, u) == (if reports[0].uid == u then [reports[0].state] else []) + StatesOf(reports[1..], u)
  {
    assert reports == reports[..1] + reports[1..] && reports[..1][..0] == [];
    StatesConcat(reports[..1], reports[1..], u);
  }

  lemma {:induction false} StatesOfOwn(states: seq<State>, u: Uid, v: Uid)
    ensures StatesOf(ReportsOf(u, states), v) == if u == v then states else []
  {
    if states != [] {
      StatesConcat([Report(u, states[0])], ReportsOf(u, states[1..]), v);
      StatesOfOwn(states[1..], u, v);
      assert [Report(u, states[0])][..0] == [];
    }
  }

  lemma {:induction false} OrdersConcat(a: seq<Assignment>, b: seq<Assignment>, u: Uid)
    ensures Orders(a + b, u) == Orders(a, u) + Orders(b, u)
  {
    if b == [] {
      assert a + b == a;
    } else {
      assert (a + b)[..|a + b| - 1] == a + b[..|b| - 1];
      OrdersConcat(a, b[..|b| - 1], u);
    }
  }

  lemma FirstOrder(channel: seq<Assignment>, u: Uid)
    requires channel != []
    ensures Orders(channel, u) == (if channel[0].uid == u then [channel[0].run] else []) + Orders(channel[1..], u)
  {
    assert channel == channel[..1] + channel[1..] && channel[..1][..0] == [];
    OrdersConcat(channel[..1], channel[1..], u);
  }

  function LoadedOf(todo: seq<Entry>, u: Uid): Option<Row>
  {
    if todo == [] then None else if todo[0].uid == u then Some(todo[0].row) else LoadedOf(todo[1..], u)
  }

  lemma {:induction false} LoadedIn(todo: seq<Entry>, u: Uid) returns (i: nat)
    ensures LoadedOf(todo, u).Some? ==> i < |todo| && todo[i].uid == u && LoadedOf(todo, u) == Some(todo[i].row)
    ensures LoadedOf(todo, u).None? ==> forall j :: 0 <= j < |todo| ==> todo[j].uid != u
  {
    i := 0;
    if todo != [] && todo[0].uid != u {
      var j := LoadedIn(todo[1..], u);
      i := j + 1;
    }
  }

  function RowOf(c: Cluster, u: Uid): Row
  {
    if u in c.rows then c.rows[u] else Row(false, Created, None, 0)
  }

  function LinkAt(c: Cluster, h: HostId, u: Uid): Link
  {
    var agent := AgentAt(c, h);
    Link(OrdersTo(c.registry, h, u), RecordIn(agent, u), agent.workers[u], StatesOf(agent.reports, u))
  }

  // The pass acts on machines of the table, each once.
  ghost predicate WellFormed(c: Cluster)
  {
    && (forall i :: 0 <= i < |c.todo| ==> c.todo[i].uid in c.rows)
    && (forall i, j :: 0 <= i < j < |c.todo| ==> c.todo[i].uid != c.todo[j].uid)
  }

  ghost predicate Shows(c: Cluster, u: Uid, m: Machine)
  {
    && WellFormed(c) && m.row == RowOf(c, u) && m.loaded == LoadedOf(c.todo, u)
    && forall h :: At(m.links, h) == LinkAt(c, h, u)
  }

  // The step the machine takes when the cluster takes `s`, if any.
  ghost function LabelFor(c: Cluster, s: Step, u: Uid): Option<Label>
  {
    match s
    case Begin(machines) =>
      if c.todo == [] && Listed(Table(c.rows, c.registry), machines) && LoadedOf(machines, u).Some? then Some(Load)
      else None
    case ActOne(hosts) =>
      if c.todo == [] || c.todo[0].uid != u then None
      else
        var choice := Choice(hosts, c.todo[0].demand);
        var send := PlanFor(c.todo[0].row, choice).send;
        Some(Act(choice, send.Some? && send.value.to in c.registry))
    case Abort(charged, hosts) =>
      if c.todo == [] then None
      else if c.todo[0].uid == u then Some(AbortPass(charged, Choice(hosts, c.todo[0].demand)))
      else Some(AbortPass(false, None))
    case Take(h, boots) =>
      if h in c.registry && c.registry[h] != [] && c.registry[h][0].uid == u then Some(Receive(h, boots)) else None
    case Ingest(h) =>
      var reports := AgentAt(c, h).reports;
      if reports != [] && reports[0].uid == u then Some(Deliver(h)) else None
    case Lose(h, i) =>
      var reports := AgentAt(c, h).reports;
      if i < |reports| && reports[i].uid == u then Some(LoseReport(h, |StatesOf(reports[..i], u)|)) else None
    case Connect(h) => Some(Reconnect(h))
    case Exit(h, v) => if v == u then Some(WorkerExits(h)) else None
    case Create(v, running) => if v == u && u !in c.rows then Some(SetDesired(running)) else None
    case Desire(v, running) => if v == u && u in c.rows then Some(SetDesired(running)) else None
  }

  function Perform(m: Machine, l: Option<Label>): Machine
  {
    if l.None? then m else Next(m, l.value)
  }

  // --- every step of the cluster is at most one step of each machine -------------------------------

  // What only one host's end of the cluster changes, only that link shows.
  lemma ShowsRelinked(c: Cluster, d: Cluster, u: Uid, m: Machine, h: HostId, link: Link)
    requires Shows(c, u, m) && d.todo == c.todo && c.rows.Keys <= d.rows.Keys
    requires forall g :: g != h ==>
             AgentAt(d, g) == AgentAt(c, g) && OrdersTo(d.registry, g, u) == OrdersTo(c.registry, g, u)
    requires LinkAt(d, h, u) == link
    ensures Shows(d, u, Relinked(m, h, link).(row := RowOf(d, u)))
  {
    var n := Relinked(m, h, link).(row := RowOf(d, u));
    forall g ensures At(n.links, g) == LinkAt(d, g, u) {
      if g != h { assert At(n.links, g) == At(m.links, g) == LinkAt(c, g, u); }
    }
  }

  // A step that leaves a machine's row and links as they are is nothing to it.
  lemma ShowsUnchanged(c: Cluster, d: Cluster, u: Uid, m: Machine, h: HostId)
    requires Shows(c, u, m) && d.todo == c.todo && c.rows.Keys <= d.rows.Keys && RowOf(d, u) == RowOf(c, u)
    requires forall g :: g != h ==>
             AgentAt(d, g) == AgentAt(c, g) && OrdersTo(d.registry, g, u) == OrdersTo(c.registry, g, u)
    requires LinkAt(d, h, u) == LinkAt(c, h, u)
    ensures Shows(d, u, m)
  {
    forall g ensures At(m.links, g) == LinkAt(d, g, u) {
      assert At(m.links, g) == LinkAt(c, g, u);
    }
  }

  // A step that only writes the table, or only ends a pass.
  lemma ShowsRow(c: Cluster, d: Cluster, u: Uid, m: Machine)
    requires Shows(c, u, m) && d.registry == c.registry && d.agents == c.agents && c.rows.Keys <= d.rows.Keys
    requires d.todo == c.todo || d.todo == []
    ensures Shows(d, u, m.(row := RowOf(d, u), loaded := LoadedOf(d.todo, u)))
  {
    var n := m.(row := RowOf(d, u), loaded := LoadedOf(d.todo, u));
    forall h ensures At(n.links, h) == LinkAt(d, h, u) { assert At(m.links, h) == LinkAt(c, h, u); }
  }

  lemma BeginIsALoad(c: Cluster, machines: seq<Entry>, u: Uid, m: Machine)
    requires Shows(c, u, m)
    ensures Shows(Moved(c, Begin(machines)), u, Perform(m, LabelFor(c, Begin(machines), u)))
  {
    if c.todo == [] && Listed(Table(c.rows, c.registry), machines) {
      var i := LoadedIn(machines, u);
    }
  }

  lemma PassOrdersMine(c: Cluster, hosts: seq<HostCapacity>, u: Uid, m: Machine, h: HostId)
    requires Shows(c, u, m) && c.todo != [] && c.todo[0].uid == u
    ensures At(Next(m, LabelFor(c, ActOne(hosts), u).value).links, h) == LinkAt(Moved(c, ActOne(hosts)), h, u)
  {
    var e := c.todo[0];
    var send := PlanFor(e.row, Choice(hosts, e.demand)).send;
    assert At(m.links, h) == LinkAt(c, h, u) && OrdersTo(c.registry, h, u) + [] == OrdersTo(c.registry, h, u);
    if send.Some? { DeliveredOrders(c.registry, send.value.to, Assignment(e.uid, send.value.run), h, u); }
  }

  lemma PassOrdersOther(c: Cluster, hosts: seq<HostCapacity>, u: Uid, h: HostId)
    requires c.todo != [] && c.todo[0].uid != u
    ensures LinkAt(Moved(c, ActOne(hosts)), h, u) == LinkAt(c, h, u)
  {
    var e := c.todo[0];
    var send := PlanFor(e.row, Choice(hosts, e.demand)).send;
    assert OrdersTo(c.registry, h, u) + [] == OrdersTo(c.registry, h, u);
    if send.Some? { DeliveredOrders(c.registry, send.value.to, Assignment(e.uid, send.value.run), h, u); }
  }

  lemma TailLoaded(todo: seq<Entry>, u: Uid)
    requires todo != [] && forall i, j :: 0 <= i < j < |todo| ==> todo[i].uid != todo[j].uid
    ensures LoadedOf(todo[1..], u) == if todo[0].uid == u then None else LoadedOf(todo, u)
  {
    if todo[0].uid == u { var i := LoadedIn(todo[1..], u); }
  }

  // Acting on the stale copy: the row written is the present one.
  lemma ActIsAnAct(c: Cluster, hosts: seq<HostCapacity>, u: Uid, m: Machine)
    requires Shows(c, u, m)
    ensures Shows(Moved(c, ActOne(hosts)), u, Perform(m, LabelFor(c, ActOne(hosts), u)))
  {
    if c.todo != [] {
      TailLoaded(c.todo, u);
      forall h ensures At(Perform(m, LabelFor(c, ActOne(hosts), u)).links, h) == LinkAt(Moved(c, ActOne(hosts)), h, u) {
        assert At(m.links, h) == LinkAt(c, h, u);
        if c.todo[0].uid == u { PassOrdersMine(c, hosts, u, m, h); } else { PassOrdersOther(c, hosts, u, h); }
      }
    }
  }

  lemma AbortMine(c: Cluster, charged: bool, hosts: seq<HostCapacity>, u: Uid, m: Machine)
    requires Shows(c, u, m) && c.todo != [] && c.todo[0].uid == u
    ensures Shows(Moved(c, Abort(charged, hosts)), u, Next(m, AbortPass(charged, Choice(hosts, c.todo[0].demand))))
  {
    ShowsRow(c, Moved(c, Abort(charged, hosts)), u, m);
  }

  lemma AbortOther(c: Cluster, charged: bool, hosts: seq<HostCapacity>, u: Uid, m: Machine)
    requires Shows(c, u, m) && c.todo != [] && c.todo[0].uid != u
    ensures Shows(Moved(c, Abort(charged, hosts)), u, Next(m, AbortPass(false, None)))
  {
    ShowsRow(c, Moved(c, Abort(charged, hosts)), u, m);
  }

  // A pass that breaks off may have made some writes for the machine it was at, and none for the rest.
  lemma AbortIsAnAbort(c: Cluster, charged: bool, hosts: seq<HostCapacity>, u: Uid, m: Machine)
    requires Shows(c, u, m)
    ensures Shows(Moved(c, Abort(charged, hosts)), u, Perform(m, LabelFor(c, Abort(charged, hosts), u)))
  {
    if c.todo != [] {
      if c.todo[0].uid == u { AbortMine(c, charged, hosts, u, m); } else { AbortOther(c, charged, hosts, u, m); }
    }
  }

  // The step on a link with more orders and earlier reports is the step on a bare one.
  lemma HandledBare(run: bool, orders: seq<bool>, record: Record, workers: nat, states: seq<State>, boots: bool)
    ensures var after := Handled(Link([run], record, workers, []), boots);
            Handled(Link([run] + orders, record, workers, states), boots) ==
            Link(orders, after.record, after.workers, states + after.reports)
  {
    assert ([run] + orders)[1..] == orders && states + [] == states;
    var none: seq<State> := [];
    assert forall x :: none + [x] == [x];
  }

  lemma HandledMine(s: AgentState, a: Assignment, boots: bool, orders: seq<bool>)
    ensures var t := HandledBy(s, a, boots);
            Link(orders, RecordIn(t, a.uid), t.workers[a.uid], StatesOf(t.reports, a.uid)) ==
            Handled(Link([a.run] + orders, RecordIn(s, a.uid), s.workers[a.uid], StatesOf(s.reports, a.uid)), boots)
  {
    var after := Handled(Link([a.run], RecordIn(s, a.uid), s.workers[a.uid], []), boots);
    StatesConcat(s.reports, ReportsOf(a.uid, after.reports), a.uid);
    StatesOfOwn(after.reports, a.uid, a.uid);
    HandledBare(a.run, orders, RecordIn(s, a.uid), s.workers[a.uid], StatesOf(s.reports, a.uid), boots);
  }

  lemma HandledOther(s: AgentState, a: Assignment, boots: bool, u: Uid)
    requires a.uid != u
    ensures var t := HandledBy(s, a, boots);
            && RecordIn(t, u) == RecordIn(s, u) && t.workers[u] == s.workers[u]
            && StatesOf(t.reports, u) == StatesOf(s.reports, u)
  {
    var after := Handled(Link([a.run], RecordIn(s, a.uid), s.workers[a.uid], []), boots);
    StatesConcat(s.reports, ReportsOf(a.uid, after.reports), u);
    StatesOfOwn(after.reports, a.uid, u);
  }

  lemma TakeMine(c: Cluster, h: HostId, boots: bool, u: Uid, m: Machine)
    requires Shows(c, u, m) && h in c.registry && c.registry[h] != [] && c.registry[h][0].uid == u
    ensures Shows(Moved(c, Take(h, boots)), u, Next(m, Receive(h, boots)))
  {
    var a, d := c.registry[h][0], Moved(c, Take(h, boots));
    FirstOrder(c.registry[h], u);
    HandledMine(AgentAt(c, h), a, boots, Orders(c.registry[h][1..], u));
    assert At(m.links, h) == LinkAt(c, h, u);
    ShowsRelinked(c, d, u, m, h, Handled(LinkAt(c, h, u), boots));
  }

  lemma TakeOther(c: Cluster, h: HostId, boots: bool, u: Uid, m: Machine)
    requires Shows(c, u, m) && h in c.registry && c.registry[h] != [] && c.registry[h][0].uid != u
    ensures Shows(Moved(c, Take(h, boots)), u, m)
  {
    FirstOrder(c.registry[h], u);
    HandledOther(AgentAt(c, h), c.registry[h][0], boots, u);
    ShowsUnchanged(c, Moved(c, Take(h, boots)), u, m, h);
  }

  // Handling one machine's assignment is its step and nothing to the others.
  lemma TakeIsAReceive(c: Cluster, h: HostId, boots: bool, u: Uid, m: Machine)
    requires Shows(c, u, m)
    ensures Shows(Moved(c, Take(h, boots)), u, Perform(m, LabelFor(c, Take(h, boots), u)))
  {
    if h in c.registry && c.registry[h] != [] {
      if c.registry[h][0].uid == u { TakeMine(c, h, boots, u, m); } else { TakeOther(c, h, boots, u, m); }
    }
  }

  lemma IngestMine(c: Cluster, h: HostId, u: Uid, m: Machine)
    requires Shows(c, u, m) && Inv(m) && AgentAt(c, h).reports != [] && AgentAt(c, h).reports[0].uid == u
    ensures Shows(Moved(c, Ingest(h)), u, Next(m, Deliver(h)))
  {
    var reports, d := AgentAt(c, h).reports, Moved(c, Ingest(h));
    FirstState(reports, u);
    assert StatesOf(reports, u)[1..] == StatesOf(reports[1..], u);
    assert At(m.links, h) == LinkAt(c, h, u);
    ShowsRelinked(c, d, u, m, h, LinkAt(c, h, u).(reports := StatesOf(reports[1..], u)));
  }

  lemma IngestOther(c: Cluster, h: HostId, u: Uid, m: Machine)
    requires Shows(c, u, m) && AgentAt(c, h).reports != [] && AgentAt(c, h).reports[0].uid != u
    ensures Shows(Moved(c, Ingest(h)), u, m)
  {
    FirstState(AgentAt(c, h).reports, u);
    ShowsUnchanged(c, Moved(c, Ingest(h)), u, m, h);
  }

  // A report stored for one machine is its delivery; a machine not in the table has none under way.
  lemma IngestIsADelivery(c: Cluster, h: HostId, u: Uid, m: Machine)
    requires Shows(c, u, m) && Inv(m)
    ensures Shows(Moved(c, Ingest(h)), u, Perform(m, LabelFor(c, Ingest(h), u)))
  {
    var reports := AgentAt(c, h).reports;
    if reports != [] {
      if reports[0].uid == u { IngestMine(c, h, u, m); } else { IngestOther(c, h, u, m); }
    }
  }

  lemma LoseMine(c: Cluster, h: HostId, i: nat, u: Uid, m: Machine)
    requires Shows(c, u, m) && i < |AgentAt(c, h).reports| && AgentAt(c, h).reports[i].uid == u
    ensures Shows(Moved(c, Lose(h, i)), u, Next(m, LoseReport(h, |StatesOf(AgentAt(c, h).reports[..i], u)|)))
  {
    var reports := AgentAt(c, h).reports;
    var states, k := StatesOf(reports, u), |StatesOf(reports[..i], u)|;
    StatesWithout(reports, i, u);
    assert At(m.links, h) == LinkAt(c, h, u);
    ShowsRelinked(c, Moved(c, Lose(h, i)), u, m, h, LinkAt(c, h, u).(reports := states[..k] + states[k + 1..]));
  }

  lemma LoseOther(c: Cluster, h: HostId, i: nat, u: Uid, m: Machine)
    requires Shows(c, u, m) && i < |AgentAt(c, h).reports| && AgentAt(c, h).reports[i].uid != u
    ensures Shows(Moved(c, Lose(h, i)), u, m)
  {
    StatesWithout(AgentAt(c, h).reports, i, u);
    ShowsUnchanged(c, Moved(c, Lose(h, i)), u, m, h);
  }

  lemma LossIsALoss(c: Cluster, h: HostId, i: nat, u: Uid, m: Machine)
    requires Shows(c, u, m)
    ensures Shows(Moved(c, Lose(h, i)), u, Perform(m, LabelFor(c, Lose(h, i), u)))
  {
    if i < |AgentAt(c, h).reports| {
      if AgentAt(c, h).reports[i].uid == u { LoseMine(c, h, i, u, m); } else { LoseOther(c, h, i, u, m); }
    }
  }

  // Connecting anew drops that host's queued orders of every machine, and no other host's.
  lemma ConnectIsAReconnect(c: Cluster, h: HostId, u: Uid, m: Machine)
    requires Shows(c, u, m)
    ensures var d := Moved(c, Connect(h));
            && Shows(d, u, Next(m, Reconnect(h)))
            && forall g :: OrdersTo(d.registry, g, u) == if g == h then [] else OrdersTo(c.registry, g, u)
  {
    var d := Moved(c, Connect(h));
    assert At(m.links, h) == LinkAt(c, h, u);
    ShowsRelinked(c, d, u, m, h, LinkAt(d, h, u));
  }

  lemma ExitIsAnExit(c: Cluster, h: HostId, v: Uid, u: Uid, m: Machine)
    requires Shows(c, u, m)
    ensures Shows(Moved(c, Exit(h, v)), u, Perform(m, LabelFor(c, Exit(h, v), u)))
  {
    var d := Moved(c, Exit(h, v));
    assert At(m.links, h) == LinkAt(c, h, u);
    if v == u { ShowsRelinked(c, d, u, m, h, LinkAt(d, h, u)); } else { ShowsUnchanged(c, d, u, m, h); }
  }

  lemma CreateIsAWish(c: Cluster, v: Uid, running: bool, u: Uid, m: Machine)
    requires Shows(c, u, m)
    ensures Shows(Moved(c, Create(v, running)), u, Perform(m, LabelFor(c, Create(v, running), u)))
  {
    ShowsRow(c, Moved(c, Create(v, running)), u, m);
  }

  lemma DesireIsAWish(c: Cluster, v: Uid, running: bool, u: Uid, m: Machine)
    requires Shows(c, u, m)
    ensures Shows(Moved(c, Desire(v, running)), u, Perform(m, LabelFor(c, Desire(v, running), u)))
  {
    ShowsRow(c, Moved(c, Desire(v, running)), u, m);
  }

  lemma StepIsSimulated(c: Cluster, s: Step, u: Uid, m: Machine)
    requires Shows(c, u, m) && Inv(m)
    ensures Shows(Moved(c, s), u, Perform(m, LabelFor(c, s, u)))
  {
    match s {
      case Begin(machines) => BeginIsALoad(c, machines, u, m);
      case ActOne(hosts) => ActIsAnAct(c, hosts, u, m);
      case Abort(charged, hosts) => AbortIsAnAbort(c, charged, hosts, u, m);
      case Take(h, boots) => TakeIsAReceive(c, h, boots, u, m);
      case Ingest(h) => IngestIsADelivery(c, h, u, m);
      case Lose(h, i) => LossIsALoss(c, h, i, u, m);
      case Connect(h) => ConnectIsAReconnect(c, h, u, m);
      case Exit(h, v) => ExitIsAnExit(c, h, v, u, m);
      case Create(v, running) => CreateIsAWish(c, v, running, u, m);
      case Desire(v, running) => DesireIsAWish(c, v, running, u, m);
    }
  }

  // --- runs ----------------------------------------------------------------------------------------

  const FRESH := Machine(Row(false, Created, None, 0), None, map[], 0, 0)

  lemma EmptyShowsFresh(u: Uid)
    ensures Shows(EMPTY, u, FRESH) && Init(FRESH)
  {
  }

  // Whatever a cluster goes through, each machine goes through a run of the protocol.
  lemma {:induction false} EveryRunIsSimulated(steps: seq<Step>, u: Uid) returns (labels: seq<Label>)
    ensures Init(FRESH) && Shows(RunOf(EMPTY, steps), u, Run(FRESH, labels))
  {
    EmptyShowsFresh(u);
    if steps == [] {
      labels := [];
    } else {
      var before := EveryRunIsSimulated(steps[..|steps| - 1], u);
      var c, s := RunOf(EMPTY, steps[..|steps| - 1]), steps[|steps| - 1];
      RunKeepsInv(FRESH, before);
      StepIsSimulated(c, s, u, Run(FRESH, before));
      var l := LabelFor(c, s, u);
      if l.None? {
        labels := before;
      } else {
        labels := before + [l.value];
        assert labels[..|labels| - 1] == before;
      }
    }
  }

  function PassSteps(machines: seq<Entry>, hosts: seq<HostCapacity>, k: nat): seq<Step>
  {
    if k == 0 then [Begin(machines)] else PassSteps(machines, hosts, k - 1) + [ActOne(hosts)]
  }

  lemma LastStep(c: Cluster, machines: seq<Entry>, hosts: seq<HostCapacity>, k: nat)
    ensures RunOf(c, PassSteps(machines, hosts, k)) ==
            if k == 0 then Moved(c, Begin(machines)) else Moved(RunOf(c, PassSteps(machines, hosts, k - 1)),
                                                                ActOne(hosts))
  {
    var steps := PassSteps(machines, hosts, k);
    if k == 0 {
      assert steps[..0] == [];
    } else {
      assert steps[..|steps| - 1] == PassSteps(machines, hosts, k - 1);
    }
  }

  lemma OneEntryMore(machines: seq<Entry>, k: nat)
    requires 0 < k <= |machines|
    ensures machines[..k][..k - 1] == machines[..k - 1] && machines[..k][k - 1] == machines[k - 1]
    ensures machines[k - 1..] != [] && machines[k - 1..][0] == machines[k - 1] &&
            machines[k - 1..][1..] == machines[k..]
  {
  }

  lemma PassSnoc(t: Table, machines: seq<Entry>, hosts: seq<HostCapacity>, k: nat)
    requires 0 < k <= |machines|
    ensures Pass(t, machines[..k], hosts) == PassOne(Pass(t, machines[..k - 1], hosts), machines[k - 1], hosts)
  {
    OneEntryMore(machines, k);
  }

  lemma ActAt(c: Cluster, p: Table, todo: seq<Entry>, hosts: seq<HostCapacity>)
    requires todo != []
    ensures var q := PassOne(p, todo[0], hosts);
            Moved(c.(rows := p.rows, registry := p.registry, todo := todo), ActOne(hosts)) ==
            c.(rows := q.rows, registry := q.registry, todo := todo[1..])
  {
  }

  function PassedTo(c: Cluster, machines: seq<Entry>, hosts: seq<HostCapacity>, k: nat): Cluster
    requires k <= |machines|
  {
    var p := Pass(Table(c.rows, c.registry), machines[..k], hosts);
    c.(rows := p.rows, registry := p.registry, todo := machines[k..])
  }

  lemma PassBegins(c: Cluster, machines: seq<Entry>, hosts: seq<HostCapacity>)
    requires c.todo == [] && Listed(Table(c.rows, c.registry), machines)
    ensures Moved(c, Begin(machines)) == PassedTo(c, machines, hosts, 0)
  {
    assert machines[0..] == machines;
  }

  lemma PassGoesOn(c: Cluster, machines: seq<Entry>, hosts: seq<HostCapacity>, k: nat)
    requires 0 < k <= |machines|
    ensures Moved(PassedTo(c, machines, hosts, k - 1), ActOne(hosts)) == PassedTo(c, machines, hosts, k)
  {
    OneEntryMore(machines, k);
    PassSnoc(Table(c.rows, c.registry), machines, hosts, k);
    ActAt(c, Pass(Table(c.rows, c.registry), machines[..k - 1], hosts), machines[k - 1..], hosts);
  }

  // The controller's uninterrupted pass is such steps in a row.
  lemma {:induction false} PassIsARun(c: Cluster, machines: seq<Entry>, hosts: seq<HostCapacity>, k: nat)
    requires c.todo == [] && Listed(Table(c.rows, c.registry), machines) && k <= |machines|
    ensures RunOf(c, PassSteps(machines, hosts, k)) == PassedTo(c, machines, hosts, k)
  {
    LastStep(c, machines, hosts, k);
    if k == 0 {
      PassBegins(c, machines, hosts);
    } else {
      PassIsARun(c, machines, hosts, k - 1);
      PassGoesOn(c, machines, hosts, k);
    }
  }

  // The steps of the cluster in which its controller does what happens to it.
  function StepsOf(e: Happening, listing: seq<Entry>, hosts: seq<HostCapacity>, from: HostId): seq<Step>
  {
    match e
    case Ticks => PassSteps(listing, hosts, |listing|)
    case Connects(h) => [Connect(h)]
    case Reports(_) => [Ingest(from)]
  }

  // The running controller takes steps of the cluster.
  lemma HappeningIsARun(c: Cluster, e: Happening, listing: seq<Entry>, hosts: seq<HostCapacity>, from: HostId)
    requires c.todo == [] && (e.Ticks? ==> Listed(Table(c.rows, c.registry), listing))
    requires e.Reports? ==> AgentAt(c, from).reports != [] && AgentAt(c, from).reports[0] == e.report
    ensures var d := RunOf(c, StepsOf(e, listing, hosts, from));
            d.todo == [] && Table(d.rows, d.registry) == TableStep(Table(c.rows, c.registry), e, listing, hosts)
  {
    if e.Ticks? {
      PassIsARun(c, listing, hosts, |listing|);
      assert listing[..|listing|] == listing && listing[|listing|..] == [];
    } else {
      var steps := StepsOf(e, listing, hosts, from);
      assert steps[..0] == [];
    }
  }

  // No machine ever has workers on two hosts, or two on one, and it has one only where it is placed.
  lemma ClusterSinglePlacement(steps: seq<Step>, u: Uid, g: HostId, h: HostId)
    ensures var c := RunOf(EMPTY, steps);
            && AgentAt(c, g).workers[u] <= 1
            && (AgentAt(c, g).workers[u] == 1 ==> RowOf(c, u).host == Some(g))
            && (AgentAt(c, g).workers[u] > 0 && AgentAt(c, h).workers[u] > 0 ==> g == h)
            && RowOf(c, u).retry <= MAX_RETRIES
  {
    var labels := EveryRunIsSimulated(steps, u);
    SinglePlacement(FRESH, labels, g);
    SinglePlacement(FRESH, labels, h);
    RunKeepsInv(FRESH, labels);
    var c, m := RunOf(EMPTY, steps), Run(FRESH, labels);
    assert At(m.links, g) == LinkAt(c, g, u) && At(m.links, h) == LinkAt(c, h, u);
  }

  // --- placement -------------------------------------------------------------------------------------

  // Acting on an entry, in any state of any run: the best host is written, the start goes to it, and
  // nothing is sent or written for another machine.
  lemma EveryActIsRight(c: Cluster, hosts: seq<HostCapacity>) returns (after: Row)
    requires c.todo != []
    ensures var d := Moved(c, ActOne(hosts));
            Follows(Table(c.rows, c.registry), c.todo[0], hosts, after, Table(d.rows, d.registry))
  {
    after := PassOneIsRight(Table(c.rows, c.registry), c.todo[0], hosts);
  }

  // In this step the pass, acting on an unplaced entry of `u`, had `h` as the best of the hosts it knew of.
  ghost predicate PlacedBy(c: Cluster, s: Step, u: Uid, h: HostId)
  {
    && (s.ActOne? || s.Abort?) && c.todo != [] && c.todo[0].uid == u
    && c.todo[0].row.host.None? && Starts(c.todo[0].row) && IsBestHost(s.hosts, c.todo[0].demand, h)
  }

  lemma HostIsWrittenByPlacing(c: Cluster, s: Step, u: Uid)
    requires RowOf(Moved(c, s), u).host.Some? && RowOf(Moved(c, s), u).host != RowOf(c, u).host
    ensures PlacedBy(c, s, u, RowOf(Moved(c, s), u).host.value)
  {
    if s.ActOne? || s.Abort? {
      var m := c.todo[0];
      ReconciledIsRight(m.row, m.demand, s.hosts, "");
    }
  }

  // Wherever a machine is placed in any run, that host was the best when it was placed.
  lemma {:induction false} PlacementWasBest(steps: seq<Step>, u: Uid) returns (k: nat)
    requires RowOf(RunOf(EMPTY, steps), u).host.Some?
    ensures k < |steps|
    ensures PlacedBy(RunOf(EMPTY, steps[..k]), steps[k], u, RowOf(RunOf(EMPTY, steps), u).host.value)
  {
    var n := |steps| - 1;
    var c := RunOf(EMPTY, steps[..n]);
    if RowOf(c, u).host == RowOf(RunOf(EMPTY, steps), u).host {
      k := PlacementWasBest(steps[..n], u);
      assert steps[..n][..k] == steps[..k];
    } else {
      k := n;
      HostIsWrittenByPlacing(c, steps[n], u);
    }
  }
}
