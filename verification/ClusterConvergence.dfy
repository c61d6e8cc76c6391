// Every machine of a fair cluster converges. Seen from one machine, a cluster run is a run of
// `ControlPlane` in which every kind of step keeps having its turn, because queues are served in order.
module ClusterConvergence {
  import opened Prelude
  import opened ControlPlane
  import opened ControlLoop
  import opened Cluster
  import opened Queues
  import Convergence

  // --- a label for every step ----------------------------------------------------------------------

  // Nothing to the machine.
  function Idle(c: Cluster, u: Uid): Label
  {
    SetDesired(RowOf(c, u).desired)
  }

  // What a step of the cluster is to the machine. A turn at a queue in which it has nothing is its turn
  // as well, though nothing comes of it.
  ghost function LabelAt(c: Cluster, s: Step, u: Uid): Label
  {
    match s
    case ActOne(hosts) =>
      if c.todo != [] && c.todo[0].uid == u then
        var choice := Choice(hosts, c.todo[0].demand);
        var send := PlanFor(c.todo[0].row, choice).send;
        Act(choice, send.None? || send.value.to in c.registry)
      else if LoadedOf(c.todo, u).None? then Act(Some(""), true)
      else Idle(c, u)
    case Abort(_, _) => if LoadedOf(c.todo, u).None? then Idle(c, u) else Named(c, s, u)
    case Take(h, boots) => if OrdersTo(c.registry, h, u) == [] then Receive(h, boots) else Named(c, s, u)
    case Ingest(h) => if StatesOf(AgentAt(c, h).reports, u) == [] then Deliver(h) else Named(c, s, u)
    case Connect(h) => if RowOf(c, u).host == Some(h) then Reconnect(h) else Idle(c, u)
    case _ => Named(c, s, u)
  }

  ghost function Named(c: Cluster, s: Step, u: Uid): Label
  {
    var l := LabelFor(c, s, u);
    if l.Some? then l.value else Idle(c, u)
  }

  lemma NamedIsSimulated(c: Cluster, s: Step, u: Uid, m: Machine)
    requires Shows(c, u, m) && Inv(m)
    ensures Shows(Moved(c, s), u, Next(m, Named(c, s, u)))
  {
    StepIsSimulated(c, s, u, m);
  }

  lemma ActIsSimulated(c: Cluster, hosts: seq<HostCapacity>, u: Uid, m: Machine)
    requires Shows(c, u, m) && Inv(m)
    ensures Shows(Moved(c, ActOne(hosts)), u, Next(m, LabelAt(c, ActOne(hosts), u)))
  {
    StepIsSimulated(c, ActOne(hosts), u, m);
  }

  lemma AbortIsSimulated(c: Cluster, charged: bool, hosts: seq<HostCapacity>, u: Uid, m: Machine)
    requires Shows(c, u, m) && Inv(m)
    ensures Shows(Moved(c, Abort(charged, hosts)), u, Next(m, LabelAt(c, Abort(charged, hosts), u)))
  {
    StepIsSimulated(c, Abort(charged, hosts), u, m);
  }

  lemma NothingTaken(c: Cluster, h: HostId, boots: bool, u: Uid)
    requires OrdersTo(c.registry, h, u) == []
    ensures LabelFor(c, Take(h, boots), u).None?
  {
    if h in c.registry && c.registry[h] != [] { FirstOrder(c.registry[h], u); }
  }

  lemma NothingStored(c: Cluster, h: HostId, u: Uid)
    requires StatesOf(AgentAt(c, h).reports, u) == []
    ensures LabelFor(c, Ingest(h), u).None?
  {
    if AgentAt(c, h).reports != [] { FirstState(AgentAt(c, h).reports, u); }
  }

  lemma NothingNamed(c: Cluster, s: Step, u: Uid, m: Machine)
    requires Shows(c, u, m) && Inv(m) && LabelFor(c, s, u).None?
    ensures Shows(Moved(c, s), u, m)
  {
    StepIsSimulated(c, s, u, m);
  }

  lemma EmptyTurn(c: Cluster, h: HostId, u: Uid, m: Machine, boots: bool)
    requires Shows(c, u, m)
    ensures OrdersTo(c.registry, h, u) == [] ==> Next(m, Receive(h, boots)) == m
    ensures StatesOf(AgentAt(c, h).reports, u) == [] ==> Next(m, Deliver(h)) == m
  {
    assert At(m.links, h) == LinkAt(c, h, u);
  }

  lemma TakeIsSimulated(c: Cluster, h: HostId, boots: bool, u: Uid, m: Machine)
    requires Shows(c, u, m) && Inv(m)
    ensures Shows(Moved(c, Take(h, boots)), u, Next(m, LabelAt(c, Take(h, boots), u)))
  {
    if OrdersTo(c.registry, h, u) == [] {
      NothingTaken(c, h, boots, u);
      NothingNamed(c, Take(h, boots), u, m);
      EmptyTurn(c, h, u, m, boots);
    } else {
      NamedIsSimulated(c, Take(h, boots), u, m);
    }
  }

  lemma IngestIsSimulated(c: Cluster, h: HostId, u: Uid, m: Machine)
    requires Shows(c, u, m) && Inv(m)
    ensures Shows(Moved(c, Ingest(h)), u, Next(m, LabelAt(c, Ingest(h), u)))
  {
    if StatesOf(AgentAt(c, h).reports, u) == [] {
      NothingStored(c, h, u);
      NothingNamed(c, Ingest(h), u, m);
      EmptyTurn(c, h, u, m, true);
    } else {
      NamedIsSimulated(c, Ingest(h), u, m);
    }
  }

  lemma ConnectIsSimulated(c: Cluster, h: HostId, u: Uid, m: Machine)
    requires Shows(c, u, m) && Inv(m)
    ensures Shows(Moved(c, Connect(h)), u, Next(m, LabelAt(c, Connect(h), u)))
  {
    assert At(m.links, h) == LinkAt(c, h, u);
    if RowOf(c, u).host == Some(h) {
      ConnectIsAReconnect(c, h, u, m);
    } else {
      ShowsUnchanged(c, Moved(c, Connect(h)), u, m, h);
    }
  }

  lemma LabelIsSimulated(c: Cluster, s: Step, u: Uid, m: Machine)
    requires Shows(c, u, m) && Inv(m)
    ensures Shows(Moved(c, s), u, Next(m, LabelAt(c, s, u)))
  {
    match s {
      case ActOne(hosts) => ActIsSimulated(c, hosts, u, m);
      case Abort(charged, hosts) => AbortIsSimulated(c, charged, hosts, u, m);
      case Take(h, boots) => TakeIsSimulated(c, h, boots, u, m);
      case Ingest(h) => IngestIsSimulated(c, h, u, m);
      case Connect(h) => ConnectIsSimulated(c, h, u, m);
      case _ => NamedIsSimulated(c, s, u, m);
    }
  }

  // --- one machine's run ------------------------------------------------------------------------------

  type ClusterRun = nat -> Cluster
  type ClusterSchedule = nat -> Step

  ghost predicate StepsAt(run: ClusterRun, steps: ClusterSchedule, n: nat)
  {
    run(n + 1) == Moved(run(n), steps(n))
  }

  ghost predicate IsClusterRun(run: ClusterRun, steps: ClusterSchedule)
  {
    run(0) == EMPTY && forall n: nat :: StepsAt(run, steps, n)
  }

  ghost function MachineAt(run: ClusterRun, steps: ClusterSchedule, u: Uid, n: nat): Machine
  {
    if n == 0 then FRESH else Next(MachineAt(run, steps, u, n - 1), LabelAt(run(n - 1), steps(n - 1), u))
  }

  ghost function SeenFrom(run: ClusterRun, steps: ClusterSchedule, u: Uid): Convergence.Behaviour
  {
    (n: nat) => MachineAt(run, steps, u, n)
  }

  ghost function LabelsOf(run: ClusterRun, steps: ClusterSchedule, u: Uid): Convergence.Schedule
  {
    (n: nat) => LabelAt(run(n), steps(n), u)
  }

  lemma {:induction false} ShownAt(run: ClusterRun, steps: ClusterSchedule, u: Uid, n: nat)
    requires IsClusterRun(run, steps)
    ensures Shows(run(n), u, SeenFrom(run, steps, u)(n)) && Inv(SeenFrom(run, steps, u)(n))
  {
    EmptyShowsFresh(u);
    if n > 0 {
      ShownAt(run, steps, u, n - 1);
      assert StepsAt(run, steps, n - 1);
      LabelIsSimulated(run(n - 1), steps(n - 1), u, MachineAt(run, steps, u, n - 1));
      StepKeepsInv(MachineAt(run, steps, u, n - 1), LabelAt(run(n - 1), steps(n - 1), u));
    }
  }

  lemma IsOneMachinesRun(run: ClusterRun, steps: ClusterSchedule, u: Uid)
    requires IsClusterRun(run, steps)
    ensures Convergence.IsRun(SeenFrom(run, steps, u), LabelsOf(run, steps, u))
  {
    forall n: nat ensures Convergence.Steps(SeenFrom(run, steps, u), LabelsOf(run, steps, u), n) {
      assert MachineAt(run, steps, u, n + 1) == Next(MachineAt(run, steps, u, n), LabelAt(run(n), steps(n), u));
    }
  }

  // --- steadiness -----------------------------------------------------------------------------------------

  // The standing assumptions, machine by machine: when the pass acts on it a host fits and the host it
  // sends to is connected; a pass that has it on its list finishes; its host's agent stays connected, its
  // reports arrive, its worker lives on and its spec is fixed.
  ghost predicate GoodStep(c: Cluster, s: Step, u: Uid)
  {
    match s
    case ActOne(hosts) =>
      c.todo != [] && c.todo[0].uid == u ==>
        var choice := Choice(hosts, c.todo[0].demand);
        var send := PlanFor(c.todo[0].row, choice).send;
        choice.Some? && (send.Some? ==> send.value.to in c.registry)
    case Abort(_, _) => LoadedOf(c.todo, u).None?
    case Lose(h, i) => i < |AgentAt(c, h).reports| ==> AgentAt(c, h).reports[i].uid != u
    case Connect(h) => RowOf(c, u).host != Some(h)
    case Exit(_, v) => v != u
    case Create(v, _) => v != u || u in c.rows
    case Desire(v, running) => v != u || running == RowOf(c, u).desired
    case _ => true
  }

  ghost predicate SteadyFor(run: ClusterRun, steps: ClusterSchedule, u: Uid, n: nat)
  {
    forall i: nat :: n <= i ==> GoodStep(run(i), steps(i), u)
  }

  lemma GoodLabel(c: Cluster, s: Step, u: Uid, m: Machine)
    requires Shows(c, u, m) && GoodStep(c, s, u)
    ensures Convergence.Good(m, LabelAt(c, s, u))
  {
  }

  lemma IsSteady(run: ClusterRun, steps: ClusterSchedule, u: Uid, n: nat)
    requires IsClusterRun(run, steps) && SteadyFor(run, steps, u, n)
    ensures Convergence.SteadyFrom(SeenFrom(run, steps, u), LabelsOf(run, steps, u), n)
  {
    forall i: nat | n <= i ensures Convergence.Good(SeenFrom(run, steps, u)(i), LabelsOf(run, steps, u)(i)) {
      ShownAt(run, steps, u, i);
      GoodLabel(run(i), steps(i), u, SeenFrom(run, steps, u)(i));
    }
  }

  // --- queues ---------------------------------------------------------------------------------------------

  lemma Popped(q: seq<Uid>, u: Uid)
    requires u in q && q[0] != u
    ensures u in q[1..] && IndexOf(q[1..], u) == IndexOf(q, u) - 1
  {
  }

  lemma Joined(q: seq<Uid>, r: seq<Uid>, u: Uid)
    requires u in q
    ensures u in q + r && IndexOf(q + r, u) == IndexOf(q, u)
  {
    if q[0] != u {
      assert (q + r)[1..] == q[1..] + r;
      Joined(q[1..], r, u);
    }
  }

  lemma {:induction false} Without(q: seq<Uid>, i: nat, u: Uid)
    requires u in q && i < |q| && q[i] != u
    ensures u in q[..i] + q[i + 1..] && IndexOf(q[..i] + q[i + 1..], u) <= IndexOf(q, u)
  {
    var rest := q[..i] + q[i + 1..];
    if i == 0 {
      assert rest == q[1..];
    } else if q[0] != u {
      assert rest[1..] == q[1..][..i - 1] + q[1..][i..];
      Without(q[1..], i - 1, u);
    }
  }

  function TodoUids(c: Cluster): seq<Uid>
  {
    seq(|c.todo|, i requires 0 <= i < |c.todo| => c.todo[i].uid)
  }

  function ChannelUids(c: Cluster, h: HostId): seq<Uid>
  {
    if h !in c.registry then []
    else seq(|c.registry[h]|, i requires 0 <= i < |c.registry[h]| => c.registry[h][i].uid)
  }

  function Senders(reports: seq<Report>): seq<Uid>
  {
    seq(|reports|, i requires 0 <= i < |reports| => reports[i].uid)
  }

  function ReportUids(c: Cluster, h: HostId): seq<Uid>
  {
    Senders(AgentAt(c, h).reports)
  }

  lemma InTodo(c: Cluster, u: Uid)
    ensures u in TodoUids(c) <==> LoadedOf(c.todo, u).Some?
  {
    var i := LoadedIn(c.todo, u);
    if LoadedOf(c.todo, u).Some? { assert TodoUids(c)[i] == u; }
  }

  lemma {:induction false} InOrders(channel: seq<Assignment>, u: Uid)
    ensures Orders(channel, u) != [] <==> exists i :: 0 <= i < |channel| && channel[i].uid == u
  {
    if channel != [] {
      InOrders(channel[..|channel| - 1], u);
      assert forall i :: 0 <= i < |channel| - 1 ==> channel[..|channel| - 1][i] == channel[i];
    }
  }

  lemma {:induction false} InStates(reports: seq<Report>, u: Uid)
    ensures StatesOf(reports, u) != [] <==> exists i :: 0 <= i < |reports| && reports[i].uid == u
  {
    if reports != [] {
      InStates(reports[..|reports| - 1], u);
      assert forall i :: 0 <= i < |reports| - 1 ==> reports[..|reports| - 1][i] == reports[i];
    }
  }

  lemma InChannel(c: Cluster, h: HostId, u: Uid)
    ensures u in ChannelUids(c, h) <==> OrdersTo(c.registry, h, u) != []
  {
    if h in c.registry {
      InOrders(c.registry[h], u);
      var q := ChannelUids(c, h);
      assert forall i :: 0 <= i < |q| ==> q[i] == c.registry[h][i].uid;
    }
  }

  lemma InReports(c: Cluster, h: HostId, u: Uid)
    ensures u in ReportUids(c, h) <==> StatesOf(AgentAt(c, h).reports, u) != []
  {
    InStates(AgentAt(c, h).reports, u);
    var q := ReportUids(c, h);
    assert forall i :: 0 <= i < |q| ==> q[i] == AgentAt(c, h).reports[i].uid;
  }

  // From one queue to the next the machine's first entry is kept, and is further ahead after a turn.
  predicate Ahead(q: seq<Uid>, r: seq<Uid>, u: Uid, turn: bool)
  {
    u in r && IndexOf(r, u) <= IndexOf(q, u) && (turn ==> IndexOf(r, u) < IndexOf(q, u))
  }

  lemma TodoMoves(c: Cluster, s: Step, u: Uid)
    requires GoodStep(c, s, u) && u in TodoUids(c) && !(s.ActOne? && TodoUids(c)[0] == u)
    ensures Ahead(TodoUids(c), TodoUids(Moved(c, s)), u, s.ActOne?)
  {
    InTodo(c, u);
    if s.ActOne? {
      Popped(TodoUids(c), u);
      assert TodoUids(Moved(c, s)) == TodoUids(c)[1..];
    }
  }

  lemma ChannelMoves(c: Cluster, s: Step, h: HostId, u: Uid)
    requires s != Connect(h) && u in ChannelUids(c, h) && !(s.Take? && s.host == h && ChannelUids(c, h)[0] == u)
    ensures Ahead(ChannelUids(c, h), ChannelUids(Moved(c, s), h), u, s.Take? && s.host == h)
  {
    var q, r := ChannelUids(c, h), ChannelUids(Moved(c, s), h);
    if s.Take? && s.host == h {
      Popped(q, u);
      assert r == q[1..];
    } else if s.ActOne? && r != q {
      assert r == q + [r[|q|]];
      Joined(q, [r[|q|]], u);
    }
  }

  lemma SendersAfter(a: seq<Report>, b: seq<Report>, i: nat)
    ensures Senders(a + b) == Senders(a) + Senders(b)
    ensures a != [] ==> Senders(a[1..]) == Senders(a)[1..]
    ensures i < |a| ==> Senders(a[..i] + a[i + 1..]) == Senders(a)[..i] + Senders(a)[i + 1..]
  {
  }

  lemma IngestMoves(c: Cluster, h: HostId, u: Uid)
    requires u in ReportUids(c, h) && ReportUids(c, h)[0] != u
    ensures Ahead(ReportUids(c, h), ReportUids(Moved(c, Ingest(h)), h), u, true)
  {
    SendersAfter(AgentAt(c, h).reports, [], 0);
    Popped(ReportUids(c, h), u);
  }

  lemma TakeMoves(c: Cluster, h: HostId, boots: bool, u: Uid)
    requires u in ReportUids(c, h)
    ensures Ahead(ReportUids(c, h), ReportUids(Moved(c, Take(h, boots)), h), u, false)
  {
    if h in c.registry && c.registry[h] != [] {
      var a, agent := c.registry[h][0], AgentAt(c, h);
      var more := ReportsOf(a.uid,
                            Handled(Link([a.run], RecordIn(agent, a.uid), agent.workers[a.uid], []), boots).reports);
      SendersAfter(agent.reports, more, 0);
      Joined(ReportUids(c, h), Senders(more), u);
    }
  }

  lemma LoseMoves(c: Cluster, h: HostId, i: nat, u: Uid)
    requires GoodStep(c, Lose(h, i), u) && u in ReportUids(c, h)
    ensures Ahead(ReportUids(c, h), ReportUids(Moved(c, Lose(h, i)), h), u, false)
  {
    if i < |AgentAt(c, h).reports| {
      SendersAfter(AgentAt(c, h).reports, [], i);
      Without(ReportUids(c, h), i, u);
    }
  }

  lemma ReportMoves(c: Cluster, s: Step, h: HostId, u: Uid)
    requires GoodStep(c, s, u) && u in ReportUids(c, h) && !(s.Ingest? && s.host == h && ReportUids(c, h)[0] == u)
    ensures Ahead(ReportUids(c, h), ReportUids(Moved(c, s), h), u, s.Ingest? && s.host == h)
  {
    if s.Ingest? && s.host == h {
      IngestMoves(c, h, u);
    } else if s.Take? && s.host == h {
      TakeMoves(c, h, s.boots, u);
    } else if s.Lose? && s.host == h {
      LoseMoves(c, h, s.at, u);
    }
  }

  // --- fairness --------------------------------------------------------------------------------------------

  // A pass begins that has every machine on its list.
  ghost predicate FullPass(c: Cluster, s: Step)
  {
    && s.Begin? && c.todo == [] && Listed(Table(c.rows, c.registry), s.machines)
    && forall u :: u in c.rows ==> u in Names(s.machines)
  }

  function Names(machines: seq<Entry>): seq<Uid>
  {
    seq(|machines|, i requires 0 <= i < |machines| => machines[i].uid)
  }

  ghost function Begins(run: ClusterRun, steps: ClusterSchedule): nat -> bool
  {
    (n: nat) => FullPass(run(n), steps(n))
  }

  ghost function Acts(steps: ClusterSchedule): nat -> bool
  {
    (n: nat) => steps(n).ActOne?
  }

  ghost function Takes(steps: ClusterSchedule, h: HostId): nat -> bool
  {
    (n: nat) => steps(n).Take? && steps(n).host == h
  }

  ghost function Ingests(steps: ClusterSchedule, h: HostId): nat -> bool
  {
    (n: nat) => steps(n).Ingest? && steps(n).host == h
  }

  // Passes keep beginning and going on, and every host with a machine keeps taking assignments and
  // having its reports stored.
  ghost predicate FairCluster(run: ClusterRun, steps: ClusterSchedule)
  {
    && (forall n: nat :: Later(Begins(run, steps), n)) && (forall n: nat :: Later(Acts(steps), n))
    && (forall n: nat, v: Uid :: RowOf(run(n), v).host.Some? ==> Served(steps, RowOf(run(n), v).host.value, n))
  }

  ghost predicate Served(steps: ClusterSchedule, h: HostId, n: nat)
  {
    Later(Takes(steps, h), n) && Later(Ingests(steps, h), n)
  }

  lemma ServedAlways(run: ClusterRun, steps: ClusterSchedule, u: Uid, h: HostId, n: nat, i: nat)
    requires FairCluster(run, steps) && (forall j: nat :: n <= j ==> RowOf(run(j), u).host == Some(h))
    ensures Served(steps, h, i)
  {
    var j := if i <= n then n else i;
    assert RowOf(run(j), u).host == Some(h) && Served(steps, h, j);
    var k: nat :| j <= k && Takes(steps, h)(k);
    var l: nat :| j <= l && Ingests(steps, h)(l);
    assert i <= k && i <= l;
  }

  ghost function Hits(run: ClusterRun, steps: ClusterSchedule, u: Uid, k: Convergence.Kind): nat -> bool
  {
    (n: nat) => Convergence.Turn(SeenFrom(run, steps, u)(n), LabelsOf(run, steps, u)(n), k)
  }

  lemma LoadLabel(c: Cluster, s: Step, u: Uid)
    requires FullPass(c, s) && u in c.rows
    ensures LabelAt(c, s, u) == Load
  {
    var _ := LoadedIn(s.machines, u);
    var i :| 0 <= i < |Names(s.machines)| && Names(s.machines)[i] == u;
    assert s.machines[i].uid == u;
  }

  lemma LoadHits(run: ClusterRun, steps: ClusterSchedule, u: Uid, n: nat)
    requires FairCluster(run, steps) && (forall i: nat :: n <= i ==> u in run(i).rows)
    ensures Later(Hits(run, steps, u, Convergence.Loading), n)
  {
    assert Later(Begins(run, steps), n);
    var k: nat :| n <= k && Begins(run, steps)(k);
    LoadLabel(run(k), steps(k), u);
    assert LabelsOf(run, steps, u)(k) == Load;
    assert Hits(run, steps, u, Convergence.Loading)(k);
  }

  // First in the queue, or not in it.
  predicate AtFront(q: seq<Uid>, u: Uid)
  {
    u !in q || IndexOf(q, u) == 0
  }

  lemma ActLabel(c: Cluster, hosts: seq<HostCapacity>, u: Uid)
    requires AtFront(TodoUids(c), u)
    ensures LabelAt(c, ActOne(hosts), u).Act?
  {
    InTodo(c, u);
  }

  lemma ActAdvances(run: ClusterRun, steps: ClusterSchedule, u: Uid, i: nat)
    requires IsClusterRun(run, steps) && GoodStep(run(i), steps(i), u)
    ensures Advances(Acts(steps), (n: nat) => u in TodoUids(run(n)), (n: nat) => IndexOf(TodoUids(run(n)), u),
                     Hits(run, steps, u, Convergence.Acting), i)
  {
    assert StepsAt(run, steps, i);
    if steps(i).ActOne? && AtFront(TodoUids(run(i)), u) {
      ActLabel(run(i), steps(i).hosts, u);
      assert LabelsOf(run, steps, u)(i).Act?;
    } else if u in TodoUids(run(i)) {
      TodoMoves(run(i), steps(i), u);
    }
  }

  lemma ActHits(run: ClusterRun, steps: ClusterSchedule, u: Uid, n: nat)
    requires IsClusterRun(run, steps) && FairCluster(run, steps) && SteadyFor(run, steps, u, n)
    ensures Later(Hits(run, steps, u, Convergence.Acting), n)
  {
    var waits, place := (i: nat) => u in TodoUids(run(i)), (i: nat) => IndexOf(TodoUids(run(i)), u);
    forall i: nat | n <= i ensures Advances(Acts(steps), waits, place, Hits(run, steps, u, Convergence.Acting), i) {
      ActAdvances(run, steps, u, i);
    }
    Reaches(Acts(steps), waits, place, Hits(run, steps, u, Convergence.Acting), n);
  }

  lemma TakeLabel(c: Cluster, h: HostId, boots: bool, u: Uid)
    requires AtFront(ChannelUids(c, h), u)
    ensures LabelAt(c, Take(h, boots), u) == Receive(h, boots)
  {
    InChannel(c, h, u);
  }

  lemma TakeAdvances(run: ClusterRun, steps: ClusterSchedule, u: Uid, h: HostId, i: nat)
    requires IsClusterRun(run, steps) && GoodStep(run(i), steps(i), u) && RowOf(run(i), u).host == Some(h)
    ensures Advances(Takes(steps, h), (n: nat) => u in ChannelUids(run(n), h),
                     (n: nat) => IndexOf(ChannelUids(run(n), h), u),
                     Hits(run, steps, u, Convergence.Receiving), i)
  {
    assert StepsAt(run, steps, i);
    if steps(i).Take? && steps(i).host == h && AtFront(ChannelUids(run(i), h), u) {
      TakeLabel(run(i), h, steps(i).boots, u);
      ShownAt(run, steps, u, i);
    } else if u in ChannelUids(run(i), h) {
      ChannelMoves(run(i), steps(i), h, u);
    }
  }

  lemma TakeHits(run: ClusterRun, steps: ClusterSchedule, u: Uid, h: HostId, n: nat)
    requires IsClusterRun(run, steps) && FairCluster(run, steps) && SteadyFor(run, steps, u, n)
    requires forall i: nat :: n <= i ==> RowOf(run(i), u).host == Some(h)
    ensures Later(Hits(run, steps, u, Convergence.Receiving), n)
  {
    var waits, place := (i: nat) => u in ChannelUids(run(i), h), (i: nat) => IndexOf(ChannelUids(run(i), h), u);
    forall i: nat | n <= i
      ensures Advances(Takes(steps, h), waits, place, Hits(run, steps, u, Convergence.Receiving), i)
    {
      TakeAdvances(run, steps, u, h, i);
    }
    forall i: nat ensures Later(Takes(steps, h), i) { ServedAlways(run, steps, u, h, n, i); }
    Reaches(Takes(steps, h), waits, place, Hits(run, steps, u, Convergence.Receiving), n);
  }

  lemma IngestLabel(c: Cluster, h: HostId, u: Uid)
    requires AtFront(ReportUids(c, h), u)
    ensures LabelAt(c, Ingest(h), u) == Deliver(h)
  {
    InReports(c, h, u);
  }

  lemma IngestAdvances(run: ClusterRun, steps: ClusterSchedule, u: Uid, h: HostId, i: nat)
    requires IsClusterRun(run, steps) && GoodStep(run(i), steps(i), u) && RowOf(run(i), u).host == Some(h)
    ensures Advances(Ingests(steps, h), (n: nat) => u in ReportUids(run(n), h),
                     (n: nat) => IndexOf(ReportUids(run(n), h), u),
                     Hits(run, steps, u, Convergence.Delivering), i)
  {
    assert StepsAt(run, steps, i);
    if steps(i).Ingest? && steps(i).host == h && AtFront(ReportUids(run(i), h), u) {
      IngestLabel(run(i), h, u);
      ShownAt(run, steps, u, i);
    } else if u in ReportUids(run(i), h) {
      ReportMoves(run(i), steps(i), h, u);
    }
  }

  lemma IngestHits(run: ClusterRun, steps: ClusterSchedule, u: Uid, h: HostId, n: nat)
    requires IsClusterRun(run, steps) && FairCluster(run, steps) && SteadyFor(run, steps, u, n)
    requires forall i: nat :: n <= i ==> RowOf(run(i), u).host == Some(h)
    ensures Later(Hits(run, steps, u, Convergence.Delivering), n)
  {
    var waits, place := (i: nat) => u in ReportUids(run(i), h), (i: nat) => IndexOf(ReportUids(run(i), h), u);
    forall i: nat | n <= i
      ensures Advances(Ingests(steps, h), waits, place, Hits(run, steps, u, Convergence.Delivering), i)
    {
      IngestAdvances(run, steps, u, h, i);
    }
    forall i: nat ensures Later(Ingests(steps, h), i) { ServedAlways(run, steps, u, h, n, i); }
    Reaches(Ingests(steps, h), waits, place, Hits(run, steps, u, Convergence.Delivering), n);
  }

  // --- convergence --------------------------------------------------------------------------------------

  lemma {:induction false} RowsStay(run: ClusterRun, steps: ClusterSchedule, u: Uid, n: nat, i: nat)
    requires IsClusterRun(run, steps) && u in run(n).rows && n <= i
    ensures u in run(i).rows
    decreases i - n
  {
    if n < i {
      RowsStay(run, steps, u, n, i - 1);
      assert StepsAt(run, steps, i - 1);
    }
  }

  lemma {:induction false} HostStays(run: ClusterRun, steps: ClusterSchedule, u: Uid, n: nat, i: nat)
    requires IsClusterRun(run, steps) && RowOf(run(n), u).host.Some? && n <= i
    ensures RowOf(run(i), u).host == RowOf(run(n), u).host
    decreases i - n
  {
    if n < i {
      HostStays(run, steps, u, n, i - 1);
      ShownAt(run, steps, u, i - 1);
      ShownAt(run, steps, u, i);
      StepKeepsHost(SeenFrom(run, steps, u)(i - 1), LabelsOf(run, steps, u)(i - 1));
    }
  }

  // A channel has its turn: at once while the machine is not placed, and when its queue is served after.
  lemma ChannelHits(run: ClusterRun, steps: ClusterSchedule, u: Uid, n: nat, k: Convergence.Kind)
    requires IsClusterRun(run, steps) && FairCluster(run, steps) && SteadyFor(run, steps, u, n)
    requires k == Convergence.Receiving || k == Convergence.Delivering
    ensures Later(Hits(run, steps, u, k), n)
  {
    ShownAt(run, steps, u, n);
    if RowOf(run(n), u).host.None? {
      assert Hits(run, steps, u, k)(n);
    } else {
      var h := RowOf(run(n), u).host.value;
      forall i: nat | n <= i ensures RowOf(run(i), u).host == Some(h) { HostStays(run, steps, u, n, i); }
      if k == Convergence.Receiving { TakeHits(run, steps, u, h, n); } else { IngestHits(run, steps, u, h, n); }
    }
  }

  lemma KindHits(run: ClusterRun, steps: ClusterSchedule, u: Uid, n: nat, k: Convergence.Kind)
    requires IsClusterRun(run, steps) && FairCluster(run, steps) && SteadyFor(run, steps, u, n) && u in run(n).rows
    ensures Later(Hits(run, steps, u, k), n)
  {
    match k {
      case Loading =>
        forall i: nat | n <= i ensures u in run(i).rows { RowsStay(run, steps, u, n, i); }
        LoadHits(run, steps, u, n);
      case Acting => ActHits(run, steps, u, n);
      case _ => ChannelHits(run, steps, u, n, k);
    }
  }

  // A fair cluster is fair to each of its machines.
  lemma IsFair(run: ClusterRun, steps: ClusterSchedule, u: Uid, n: nat)
    requires IsClusterRun(run, steps) && FairCluster(run, steps) && SteadyFor(run, steps, u, n) && u in run(n).rows
    ensures Convergence.Fair(SeenFrom(run, steps, u), LabelsOf(run, steps, u))
  {
    forall i: nat,
        k: Convergence.Kind ensures Convergence.TurnAfter(SeenFrom(run, steps, u), LabelsOf(run, steps, u), i, k) {
      var j := if i <= n then n else i;
      RowsStay(run, steps, u, n, j);
      KindHits(run, steps, u, j, k);
      var l: nat :| j <= l && Hits(run, steps, u, k)(l);
      assert i <= l && Convergence.Turn(SeenFrom(run, steps, u)(l), LabelsOf(run, steps, u)(l), k);
    }
  }

  // The machine's host, seen in the cluster.
  function HostLink(c: Cluster, u: Uid): Link
  {
    if RowOf(c, u).host.None? then IDLE else LinkAt(c, RowOf(c, u).host.value, u)
  }

  predicate ConvergedIn(c: Cluster, u: Uid)
  {
    Convergence.ConvergedWith(RowOf(c, u), HostLink(c, u))
  }

  ghost predicate Undisturbed(run: ClusterRun, steps: ClusterSchedule, u: Uid, n: nat)
  {
    forall i: nat :: i < n ==> Unharmed(run(i), steps(i), u)
  }

  // No report of the machine's is lost, and its worker does not end by itself.
  ghost predicate Unharmed(c: Cluster, s: Step, u: Uid)
  {
    match s
    case Lose(h, i) => i < |AgentAt(c, h).reports| ==> AgentAt(c, h).reports[i].uid != u
    case Exit(_, v) => v != u
    case _ => true
  }

  lemma IsSound(run: ClusterRun, steps: ClusterSchedule, u: Uid, n: nat)
    requires IsClusterRun(run, steps) && Undisturbed(run, steps, u, n)
    ensures Convergence.Sound(SeenFrom(run, steps, u)(n))
  {
    IsOneMachinesRun(run, steps, u);
    forall i: nat | i < n
      ensures !LabelsOf(run, steps, u)(i).LoseReport? && !LabelsOf(run, steps, u)(i).WorkerExits?
    {
      assert Unharmed(run(i), steps(i), u);
      assert LabelsOf(run, steps, u)(i) == LabelAt(run(i), steps(i), u);
    }
    Convergence.UndisturbedIsSound(SeenFrom(run, steps, u), LabelsOf(run, steps, u), n);
  }

  lemma SameConverged(run: ClusterRun, steps: ClusterSchedule, u: Uid, i: nat)
    requires IsClusterRun(run, steps)
    ensures Convergence.Converged(SeenFrom(run, steps, u)(i)) <==> ConvergedIn(run(i), u)
  {
    ShownAt(run, steps, u, i);
  }

  // In every fair run of a cluster, every machine in the table converges and stays converged, whatever
  // happens to the others: from any point from which its spec is fixed, a host fits and its own passes,
  // reports and worker do not fail, if no report of its was lost and its worker never ended before.
  lemma EveryMachineConverges(run: ClusterRun, steps: ClusterSchedule, u: Uid, n: nat) returns (k: nat)
    requires IsClusterRun(run, steps) && FairCluster(run, steps)
    requires u in run(n).rows && SteadyFor(run, steps, u, n) && Undisturbed(run, steps, u, n)
    ensures n <= k && forall i: nat :: k <= i ==> ConvergedIn(run(i), u)
  {
    IsOneMachinesRun(run, steps, u);
    IsFair(run, steps, u, n);
    IsSteady(run, steps, u, n);
    IsSound(run, steps, u, n);
    k := Convergence.EveryFairRunConverges(SeenFrom(run, steps, u), LabelsOf(run, steps, u), n);
    forall i: nat | k <= i ensures ConvergedIn(run(i), u) { SameConverged(run, steps, u, i); }
  }

  ghost predicate ConvergedInFrom(run: ClusterRun, u: Uid, k: nat)
  {
    forall i: nat :: k <= i ==> ConvergedIn(run(i), u)
  }

  ghost predicate ConvergesIn(run: ClusterRun, u: Uid, n: nat)
  {
    exists k: nat :: n <= k && ConvergedInFrom(run, u, k)
  }

  predicate NothingUnderWayIn(c: Cluster, u: Uid)
  {
    LoadedOf(c.todo, u).None? && HostLink(c, u).orders == [] && HostLink(c, u).reports == []
  }

  lemma SameConverges(run: ClusterRun, steps: ClusterSchedule, u: Uid, k: nat)
    requires IsClusterRun(run, steps)
    ensures Convergence.ConvergedFrom(SeenFrom(run, steps, u), k) <==> ConvergedInFrom(run, u, k)
  {
    forall i: nat ensures Convergence.Converged(SeenFrom(run, steps, u)(i)) <==> ConvergedIn(run(i), u) {
      SameConverged(run, steps, u, i);
    }
  }

  lemma SameConvergesAt(run: ClusterRun, steps: ClusterSchedule, u: Uid, n: nat)
    requires IsClusterRun(run, steps)
    ensures Convergence.Converges(SeenFrom(run, steps, u), n) <==> ConvergesIn(run, u, n)
  {
    forall k: nat ensures Convergence.ConvergedFrom(SeenFrom(run, steps, u), k) <==> ConvergedInFrom(run, u, k) {
      SameConverges(run, steps, u, k);
    }
  }

  // After losses of its own, from a point with nothing of its under way, a machine converges if and only
  // if what the table says of it, what its host's agent records and its worker agree, or the controller
  // acts on the difference.
  lemma MachineConvergesExactlyWhen(run: ClusterRun, steps: ClusterSchedule, u: Uid, n: nat)
    requires IsClusterRun(run, steps) && FairCluster(run, steps)
    requires u in run(n).rows && SteadyFor(run, steps, u, n) && NothingUnderWayIn(run(n), u)
    ensures ConvergesIn(run, u, n) <==> Convergence.RecoverableWith(RowOf(run(n), u), HostLink(run(n), u))
  {
    IsOneMachinesRun(run, steps, u);
    IsFair(run, steps, u, n);
    IsSteady(run, steps, u, n);
    ShownAt(run, steps, u, n);
    Convergence.ConvergesExactlyWhen(SeenFrom(run, steps, u), LabelsOf(run, steps, u), n);
    SameConvergesAt(run, steps, u, n);
  }

  // --- such runs exist ---------------------------------------------------------------------------------------

  const LITTLE := Demand(0, 0)

  function Roomy(h: HostId): seq<HostCapacity>
  {
    [HostCapacity(h, 1, 1, true)]
  }

  function Listing(c: Cluster, u: Uid): seq<Entry>
  {
    [Entry(u, RowOf(c, u), LITTLE)]
  }

  // A pass begins and acts, the agent takes, a report is stored; and again.
  function RoundStep(c: Cluster, u: Uid, h: HostId, who: nat): Step
  {
    match who
    case 0 => Begin(Listing(c, u))
    case 1 => ActOne(Roomy(h))
    case 2 => Take(h, true)
    case _ => Ingest(h)
  }

  // First the machine is created and the agent connects.
  function SmallStep(c: Cluster, u: Uid, h: HostId, n: nat): Step
  {
    if n == 0 then Create(u, true) else if n == 1 then Connect(h) else RoundStep(c, u, h, Whose(n - 2, 3))
  }

  ghost function SmallAt(u: Uid, h: HostId, n: nat): Cluster
  {
    if n == 0 then EMPTY else Moved(SmallAt(u, h, n - 1), SmallStep(SmallAt(u, h, n - 1), u, h, n - 1))
  }

  ghost function SmallRun(u: Uid, h: HostId): ClusterRun
  {
    (n: nat) => SmallAt(u, h, n)
  }

  ghost function SmallSchedule(u: Uid, h: HostId): ClusterSchedule
  {
    (n: nat) => SmallStep(SmallAt(u, h, n), u, h, n)
  }

  predicate HereOrNowhere(row: Row, h: HostId)
  {
    row.host == None || row.host == Some(h)
  }

  // One machine, placed on the one host if at all; a pass is under way between its beginning and its act.
  predicate Small(c: Cluster, u: Uid, h: HostId, who: nat)
  {
    && c.rows.Keys == {u} && h in c.registry && HereOrNowhere(c.rows[u], h)
    && if who == 1 then |c.todo| == 1 && c.todo[0] == Entry(u, c.todo[0].row, LITTLE) && HereOrNowhere(c.todo[0].row, h)
       else c.todo == []
  }

  lemma ChoiceIsHere(h: HostId, d: Demand)
    requires d == LITTLE
    ensures Choice(Roomy(h), d) == Some(h)
  {
    assert Roomy(h)[..0] == [];
    assert Roomy(h)[0] in Roomy(h);
  }

  lemma BeginStaysSmall(c: Cluster, u: Uid, h: HostId)
    requires Small(c, u, h, 0)
    ensures Small(Moved(c, Begin(Listing(c, u))), u, h, 1) && FullPass(c, Begin(Listing(c, u)))
  {
    assert Names(Listing(c, u)) == [u];
  }

  lemma ActStaysSmall(c: Cluster, u: Uid, h: HostId)
    requires Small(c, u, h, 1)
    ensures Small(Moved(c, ActOne(Roomy(h))), u, h, 2) && GoodStep(c, ActOne(Roomy(h)), u)
  {
    ChoiceIsHere(h, c.todo[0].demand);
    assert c.todo[1..] == [];
  }

  lemma TakeStaysSmall(c: Cluster, u: Uid, h: HostId)
    requires Small(c, u, h, 2)
    ensures Small(Moved(c, Take(h, true)), u, h, 3)
  {
  }

  lemma IngestStaysSmall(c: Cluster, u: Uid, h: HostId)
    requires Small(c, u, h, 3)
    ensures Small(Moved(c, Ingest(h)), u, h, 0)
  {
  }

  lemma RoundStaysSmall(c: Cluster, u: Uid, h: HostId, who: nat)
    requires Small(c, u, h, who) && who <= 3
    ensures Small(Moved(c, RoundStep(c, u, h, who)), u, h, if who == 3 then 0 else who + 1)
    ensures GoodStep(c, RoundStep(c, u, h, who), u) && Unharmed(c, RoundStep(c, u, h, who), u)
    ensures who == 0 ==> FullPass(c, RoundStep(c, u, h, who))
  {
    match who {
      case 0 => BeginStaysSmall(c, u, h);
      case 1 => ActStaysSmall(c, u, h);
      case 2 => TakeStaysSmall(c, u, h);
      case _ => IngestStaysSmall(c, u, h);
    }
  }

  lemma SmallStarts(u: Uid, h: HostId)
    ensures Small(SmallAt(u, h, 2), u, h, 0)
  {
    assert SmallAt(u, h, 0) == EMPTY;
    assert SmallAt(u, h, 1) == Moved(EMPTY, Create(u, true));
    assert SmallAt(u, h, 2) == Moved(Moved(EMPTY, Create(u, true)), Connect(h));
  }

  lemma {:induction false} StaysSmall(u: Uid, h: HostId, n: nat)
    ensures Small(SmallAt(u, h, n + 2), u, h, Whose(n, 3))
  {
    if n == 0 {
      SmallStarts(u, h);
    } else {
      StaysSmall(u, h, n - 1);
      RoundStaysSmall(SmallAt(u, h, n + 1), u, h, Whose(n - 1, 3));
    }
  }

  lemma SmallTurn(u: Uid, h: HostId, n: nat, who: nat) returns (k: nat)
    requires who <= 3
    ensures n <= k && 2 <= k && Whose(k - 2, 3) == who && Small(SmallAt(u, h, k), u, h, who)
    ensures SmallSchedule(u, h)(k) == RoundStep(SmallAt(u, h, k), u, h, who)
  {
    k := ComesRound(n, who, 3);
    StaysSmall(u, h, k);
    k := k + 2;
  }

  lemma SmallBegins(u: Uid, h: HostId, n: nat)
    ensures Later(Begins(SmallRun(u, h), SmallSchedule(u, h)), n)
  {
    var k := SmallTurn(u, h, n, 0);
    BeginStaysSmall(SmallAt(u, h, k), u, h);
    assert Begins(SmallRun(u, h), SmallSchedule(u, h))(k);
  }

  lemma SmallServes(u: Uid, h: HostId, n: nat)
    ensures Later(Acts(SmallSchedule(u, h)), n) && Served(SmallSchedule(u, h), h, n)
  {
    var i := SmallTurn(u, h, n, 1);
    assert Acts(SmallSchedule(u, h))(i);
    var j := SmallTurn(u, h, n, 2);
    assert Takes(SmallSchedule(u, h), h)(j);
    var k := SmallTurn(u, h, n, 3);
    assert Ingests(SmallSchedule(u, h), h)(k);
  }

  lemma SmallHosts(u: Uid, h: HostId, n: nat, v: Uid)
    ensures RowOf(SmallRun(u, h)(n), v).host.Some? ==> RowOf(SmallRun(u, h)(n), v).host == Some(h)
  {
    if n >= 2 {
      StaysSmall(u, h, n - 2);
    } else {
      assert SmallAt(u, h, 0) == EMPTY;
      assert n == 1 ==> SmallAt(u, h, n) == Moved(EMPTY, Create(u, true));
    }
  }

  lemma SmallIsRun(u: Uid, h: HostId)
    ensures IsClusterRun(SmallRun(u, h), SmallSchedule(u, h))
  {
    forall n: nat ensures StepsAt(SmallRun(u, h), SmallSchedule(u, h), n) {
      assert SmallRun(u, h)(n + 1) == SmallAt(u, h, n + 1);
    }
  }

  lemma SmallIsServed(u: Uid, h: HostId, n: nat, v: Uid)
    ensures var host := RowOf(SmallRun(u, h)(n), v).host; host.Some? ==> Served(SmallSchedule(u, h), host.value, n)
  {
    SmallHosts(u, h, n, v);
    SmallServes(u, h, n);
  }

  lemma SmallIsFair(u: Uid, h: HostId)
    ensures FairCluster(SmallRun(u, h), SmallSchedule(u, h))
  {
    forall n: nat ensures Later(Begins(SmallRun(u, h), SmallSchedule(u, h)), n) { SmallBegins(u, h, n); }
    forall n: nat ensures Later(Acts(SmallSchedule(u, h)), n) { SmallServes(u, h, n); }
    forall n: nat, v: Uid
      ensures var host := RowOf(SmallRun(u, h)(n), v).host; host.Some? ==> Served(SmallSchedule(u, h), host.value, n)
    {
      SmallIsServed(u, h, n, v);
    }
  }

  lemma SmallIsGood(u: Uid, h: HostId, i: nat)
    requires 2 <= i
    ensures GoodStep(SmallRun(u, h)(i), SmallSchedule(u, h)(i), u)
  {
    StaysSmall(u, h, i - 2);
    RoundStaysSmall(SmallAt(u, h, i), u, h, Whose(i - 2, 3));
  }

  lemma SmallIsSteady(u: Uid, h: HostId)
    ensures SteadyFor(SmallRun(u, h), SmallSchedule(u, h), u, 2)
  {
    forall i: nat | 2 <= i ensures GoodStep(SmallRun(u, h)(i), SmallSchedule(u, h)(i), u) { SmallIsGood(u, h, i); }
  }

  lemma SmallIsUndisturbed(u: Uid, h: HostId)
    ensures u in SmallRun(u, h)(2).rows && Undisturbed(SmallRun(u, h), SmallSchedule(u, h), u, 2)
  {
    SmallStarts(u, h);
    assert SmallSchedule(u, h)(0) == Create(u, true) && SmallSchedule(u, h)(1) == Connect(h);
  }

  // Turns that go round make a fair cluster run that is steady for its machine and loses nothing, so its
  // machine converges.
  lemma FairClustersExist(u: Uid, h: HostId) returns (k: nat)
    ensures IsClusterRun(SmallRun(u, h), SmallSchedule(u, h)) && FairCluster(SmallRun(u, h), SmallSchedule(u, h))
    ensures SteadyFor(SmallRun(u, h), SmallSchedule(u, h), u, 2)
    ensures ConvergedInFrom(SmallRun(u, h), u, k)
  {
    SmallIsRun(u, h);
    SmallIsFair(u, h);
    SmallIsSteady(u, h);
    SmallIsUndisturbed(u, h);
    k := EveryMachineConverges(SmallRun(u, h), SmallSchedule(u, h), u, 2);
  }
}
