// The control plane's view of one machine: its stored row, the reconcile pass that acts on a copy
// of it, the per-host assignment and report channels, and the agents at their other ends.
module ControlPlane {
  import opened Prelude

  // --- the decision ----------------------------------------------------------------

  datatype State =
    | Created | Preparing | Starting | Running | Paused | Stopping | Stopped | Failed | Destroying | Destroyed

  datatype Action = NoAction | AssignAndStart | Stop | Destroy | Retry

  datatype Observed = Observed(state: State, hostAssigned: bool, retryCount: nat)

  const MAX_RETRIES: nat := 3

  function Decide(desiredRunning: bool, specDeleted: bool, obs: Observed, maxRetries: nat): Action
  {
    if specDeleted then if obs.state == Destroyed then NoAction else Destroy
    else if desiredRunning then
      if obs.state == Running then NoAction
      else if obs.state == Failed then if obs.retryCount < maxRetries then Retry else NoAction
      else if !obs.hostAssigned || obs.state == Stopped || obs.state == Created then AssignAndStart
      else NoAction
    else if obs.state == Running then Stop
    else NoAction
  }

  // --- the scheduler -----------------------------------------------------------------

  type HostId = string

  datatype HostCapacity = HostCapacity(hostId: HostId, vcpusFree: u32, memMibFree: u64, healthy: bool)

  datatype Demand = Demand(vcpus: u32, memMib: u64)

  predicate Fits(h: HostCapacity, d: Demand)
  {
    h.healthy && h.vcpusFree >= d.vcpus && h.memMibFree >= d.memMib
  }

  // The fitting host with most free memory; of equals, the last listed.
  function Place(hosts: seq<HostCapacity>, d: Demand): (best: Option<HostCapacity>)
    ensures best.None? <==> forall h :: h in hosts ==> !Fits(h, d)
    ensures best.Some? ==> best.value in hosts && Fits(best.value, d)
    ensures best.Some? ==> forall h :: h in hosts && Fits(h, d) ==> h.memMibFree <= best.value.memMibFree
  {
    if hosts == [] then None
    else
      var last := hosts[|hosts| - 1];
      var front := Place(hosts[..|hosts| - 1], d);
      assert hosts == hosts[..|hosts| - 1] + [last];
      if Fits(last, d) && (front.None? || front.value.memMibFree <= last.memMibFree) then Some(last) else front
  }

  // Placement is reproducible: the choice sits at an index after which every fitting host is strictly
  // smaller, and no fitting host anywhere is larger.
  lemma {:induction false} PlaceIsLastBest(hosts: seq<HostCapacity>, d: Demand) returns (i: nat)
    requires Place(hosts, d).Some?
    ensures i < |hosts| && hosts[i] == Place(hosts, d).value
    ensures forall j :: 0 <= j < |hosts| && Fits(hosts[j], d) ==>
              if j > i then hosts[j].memMibFree < hosts[i].memMibFree else hosts[j].memMibFree <= hosts[i].memMibFree
  {
    var n := |hosts| - 1;
    var front := Place(hosts[..n], d);
    if Place(hosts, d) == Some(hosts[n]) && (front.None? || front.value.memMibFree <= hosts[n].memMibFree) {
      i := n;
      assert forall j :: 0 <= j < |hosts| ==> hosts[j] in hosts;
    } else {
      i := PlaceIsLastBest(hosts[..n], d);
      assert forall j :: 0 <= j < n ==> hosts[..n][j] == hosts[j];
    }
  }

  // --- one machine ---------------------------------------------------------------------

  datatype Row = Row(desired: bool, observed: State, host: Option<HostId>, retry: nat)

  function ActionFor(row: Row): Action
  {
    Decide(row.desired, false, Observed(row.observed, row.host.Some?, row.retry), MAX_RETRIES)
  }

  datatype Send = Send(to: HostId, run: bool)

  // What a reconcile pass does about a row: charge a retry, write a host, send an assignment.
  datatype Plan = Plan(charge: bool, assign: Option<HostId>, send: Option<Send>)

  function PlanFor(row: Row, choice: Option<HostId>): Plan
  {
    match ActionFor(row)
    case AssignAndStart => StartPlan(row, choice, false)
    case Retry => StartPlan(row, choice, true)
    case Stop => Plan(false, None, if row.host.Some? then Some(Send(row.host.value, false)) else None)
    case _ => Plan(false, None, None)
  }

  function StartPlan(row: Row, choice: Option<HostId>, charge: bool): Plan
  {
    if row.host.Some? then Plan(charge, None, Some(Send(row.host.value, true)))
    else if choice.Some? then Plan(charge, choice, Some(Send(choice.value, true)))
    else Plan(charge, None, None)
  }

  // The agent's local record of the machine.
  datatype Record = Absent | Up | Down

  // One host's end: assignments under way to it (true is run), its record, its live workers, and
  // reports under way from it.
  datatype Link = Link(orders: seq<bool>, record: Record, workers: nat, reports: seq<State>)

  const IDLE := Link([], Absent, 0, [])

  // `loaded` is the pass's copy of the row, taken when the pass read the table. `hostWrites` and
  // `retries` count what the controller has done over the run.
  datatype Machine = Machine(row: Row, loaded: Option<Row>, links: map<HostId, Link>, hostWrites: nat, retries: nat)

  function At(links: map<HostId, Link>, h: HostId): Link
  {
    if h in links then links[h] else IDLE
  }

  // What may happen: the pass reads the row and acts on its copy, or breaks off after some of the
  // writes it planned; the agent handles an assignment; a report is delivered or lost; an agent
  // connects anew, which drops what was queued for it; a worker ends by itself; the spec changes.
  datatype Label =
    | Load
    | Act(choice: Option<HostId>, connected: bool)
    | AbortPass(charged: bool, choice: Option<HostId>)
    | Receive(host: HostId, boots: bool)
    | Deliver(host: HostId)
    | LoseReport(host: HostId, at: nat)
    | Reconnect(host: HostId)
    | WorkerExits(host: HostId)
    | SetDesired(running: bool)

  function Sent(links: map<HostId, Link>, send: Option<Send>, connected: bool): map<HostId, Link>
  {
    if send.None? || !connected then links
    else
      var link := At(links, send.value.to);
      links[send.value.to := link.(orders := link.orders + [send.value.run])]
  }

  // The agent handles its first assignment: starting is skipped when the record says running, a
  // failed boot only reports, and stopping a machine it has no record of does nothing.
  function Handled(link: Link, boots: bool): Link
    requires link.orders != []
  {
    var rest := link.(orders := link.orders[1..]);
    if link.orders[0] then
      if link.record == Up then rest
      else if boots then rest.(record := Up, workers := link.workers + 1, reports := link.reports + [Running])
      else rest.(reports := link.reports + [Failed])
    else if link.record == Absent then rest
    else rest.(record := Down, workers := if link.record == Up then OneLess(link.workers) else link.workers,
         reports := link.reports + [Stopped])
  }

  function OneLess(n: nat): nat { if n == 0 then 0 else n - 1 }

  // The pass's writes to the row, of which a broken-off pass makes only some.
  function Written(m: Machine, charge: bool, assign: Option<HostId>): Machine
  {
    m.(
    row := m.row.(host := if assign.Some? then assign else m.row.host,
                  retry := m.row.retry + (if charge then 1 else 0)),
    loaded := None,
    hostWrites := m.hostWrites + (if assign.Some? then 1 else 0),
    retries := m.retries + (if charge then 1 else 0))
  }

  function Relinked(m: Machine, h: HostId, link: Link): Machine
  {
    m.(links := m.links[h := link])
  }

  function Next(m: Machine, l: Label): Machine
  {
    match l
    case Load => if m.loaded.None? then m.(loaded := Some(m.row)) else m
    case Act(choice, connected) =>
      if m.loaded.None? then m
      else
        var plan := PlanFor(m.loaded.value, choice);
        Written(m, plan.charge, plan.assign).(links := Sent(m.links, plan.send, connected))
    case AbortPass(charged, choice) =>
      if m.loaded.None? then m
      else
        var plan := PlanFor(m.loaded.value, choice);
        Written(m, charged && plan.charge, plan.assign)
    case Receive(h, boots) =>
      var link := At(m.links, h);
      if link.orders == [] then m else Relinked(m, h, Handled(link, boots))
    case Deliver(h) =>
      var link := At(m.links, h);
      if link.reports == [] then m
      else Relinked(m, h, link.(reports := link.reports[1..])).(row := m.row.(observed := link.reports[0]))
    case LoseReport(h, i) =>
      var link := At(m.links, h);
      if i >= |link.reports| then m
      else Relinked(m, h, link.(reports := link.reports[..i] + link.reports[i + 1..]))
    case Reconnect(h) => Relinked(m, h, At(m.links, h).(orders := []))
    case WorkerExits(h) => Relinked(m, h, At(m.links, h).(workers := 0))
    case SetDesired(running) => m.(row := m.row.(desired := running))
  }

  predicate Init(m: Machine)
  {
    m == Machine(Row(m.row.desired, Created, None, 0), None, map[], 0, 0)
  }

  function Run(m: Machine, labels: seq<Label>): Machine
  {
    if labels == [] then m else Next(Run(m, labels[..|labels| - 1]), labels[|labels| - 1])
  }

  // --- what every step keeps -----------------------------------------------------------------

  predicate Known(s: State)
  {
    s == Created || s == Running || s == Failed || s == Stopped
  }

  predicate Reportable(s: State)
  {
    s == Running || s == Failed || s == Stopped
  }

  // The loaded copy is stale at most in what others write: the desired flag and the observed state.
  predicate LoadedInv(row: Row, loaded: Row)
  {
    && loaded.host == row.host && loaded.retry == row.retry && Known(loaded.observed)
    && (loaded.host.None? ==> loaded.observed == Created)
  }

  // A live worker is recorded, and only a recorded machine has been reported as running or stopped.
  ghost predicate LinkInv(observed: State, link: Link)
  {
    && link.workers <= (if link.record == Up then 1 else 0)
    && (forall i :: 0 <= i < |link.reports| ==> Reportable(link.reports[i]))
    && (link.record == Absent ==>
          observed != Running && forall i :: 0 <= i < |link.reports| ==> link.reports[i] == Failed)
  }

  ghost predicate Inv(m: Machine)
  {
    && m.hostWrites == (if m.row.host.Some? then 1 else 0)
    && m.retries == m.row.retry <= MAX_RETRIES
    && Known(m.row.observed)
    && (m.row.host.None? ==> m.row.observed == Created)
    && (m.loaded.Some? ==> LoadedInv(m.row, m.loaded.value))
    && (forall h :: Some(h) != m.row.host ==> At(m.links, h) == IDLE)
    && (m.row.host.Some? ==> LinkInv(m.row.observed, At(m.links, m.row.host.value)))
  }

  lemma HandledKeepsLink(observed: State, link: Link, boots: bool)
    requires LinkInv(observed, link) && link.orders != []
    ensures LinkInv(observed, Handled(link, boots))
  {
  }

  lemma ActKeepsInv(m: Machine, choice: Option<HostId>, connected: bool)
    requires Inv(m)
    ensures Inv(Next(m, Act(choice, connected)))
  {
  }

  lemma AbortKeepsInv(m: Machine, charged: bool, choice: Option<HostId>)
    requires Inv(m)
    ensures Inv(Next(m, AbortPass(charged, choice)))
  {
  }

  lemma StepKeepsInv(m: Machine, l: Label)
    requires Inv(m)
    ensures Inv(Next(m, l))
  {
    match l {
      case Act(choice, connected) => ActKeepsInv(m, choice, connected);
      case AbortPass(charged, choice) => AbortKeepsInv(m, charged, choice);
      case Receive(h, boots) =>
        if At(m.links, h).orders != [] { HandledKeepsLink(m.row.observed, At(m.links, h), boots); }
      case _ =>
    }
  }

  lemma {:induction false} RunKeepsInv(m: Machine, labels: seq<Label>)
    requires Init(m)
    ensures Inv(Run(m, labels))
  {
    if labels != [] {
      RunKeepsInv(m, labels[..|labels| - 1]);
      StepKeepsInv(Run(m, labels[..|labels| - 1]), labels[|labels| - 1]);
    }
  }

  // Single placement: in every run, whatever assignments and reports are duplicated, lost or delayed,
  // wherever passes break off, agents reconnect and workers end, and however the desired flag moves,
  // the host is written at most once, no host but that one ever has a worker and it has at most one,
  // and at most three retries are taken.
  lemma SinglePlacement(m: Machine, labels: seq<Label>, h: HostId)
    requires Init(m)
    ensures var n := Run(m, labels);
            && n.hostWrites <= 1 && n.retries <= MAX_RETRIES
            && At(n.links, h).workers <= 1
            && (At(n.links, h).workers == 1 ==> n.row.host == Some(h) && At(n.links, h).record == Up)
  {
    RunKeepsInv(m, labels);
  }

  lemma StepKeepsHost(m: Machine, l: Label)
    requires Inv(m) && m.row.host.Some?
    ensures Next(m, l).row.host == m.row.host
  {
  }

  // A host, once written, is never changed.
  lemma {:induction false} PlacementIsPermanent(m: Machine, labels: seq<Label>, more: seq<Label>)
    requires Init(m) && Run(m, labels).row.host.Some?
    ensures Run(m, labels + more).row.host == Run(m, labels).row.host
  {
    if more == [] {
      assert labels + more == labels;
    } else {
      var front := more[..|more| - 1];
      PlacementIsPermanent(m, labels, front);
      RunKeepsInv(m, labels + front);
      StepKeepsHost(Run(m, labels + front), more[|more| - 1]);
      assert (labels + more)[..|labels + more| - 1] == labels + front;
    }
  }

  // --- what holds while reports arrive and workers live -----------------------------------------

  function Last(observed: State, reports: seq<State>): State
  {
    if reports == [] then observed else reports[|reports| - 1]
  }

  // Once running is reported, the next report can only be that it stopped.
  ghost predicate Alternates(observed: State, reports: seq<State>)
  {
    && (observed == Running && reports != [] ==> reports[0] == Stopped)
    && (forall i :: 0 <= i < |reports| - 1 && reports[i] == Running ==> reports[i + 1] == Stopped)
  }

  // The newest report, delivered or under way, tells the agent's record.
  ghost predicate Synced(observed: State, link: Link)
  {
    (Last(observed, link.reports) == Running <==> link.record == Up) && Alternates(observed, link.reports)
  }

  predicate Staffed(link: Link)
  {
    link.record == Up ==> link.workers == 1
  }

  function Mine(m: Machine): Link
  {
    if m.row.host.None? then IDLE else At(m.links, m.row.host.value)
  }

  ghost predicate InSync(m: Machine)
  {
    Synced(m.row.observed, Mine(m))
  }

  lemma DeliverKeepsSync(observed: State, link: Link)
    requires Synced(observed, link) && link.reports != []
    ensures Synced(link.reports[0], link.(reports := link.reports[1..]))
  {
    var rest := link.reports[1..];
    if rest != [] { assert rest[0] == link.reports[1] && rest[|rest| - 1] == link.reports[|link.reports| - 1]; }
    assert forall i :: 0 <= i < |rest| ==> rest[i] == link.reports[i + 1];
  }

  lemma HandledKeepsSync(observed: State, link: Link, boots: bool)
    requires LinkInv(observed, link) && Synced(observed, link) && link.orders != []
    ensures Synced(observed, Handled(link, boots))
  {
  }

  lemma StepKeepsSync(m: Machine, l: Label)
    requires Inv(m) && InSync(m) && !l.LoseReport?
    ensures InSync(Next(m, l))
  {
    match l {
      case Receive(h, boots) =>
        if At(m.links, h).orders != [] { HandledKeepsSync(m.row.observed, At(m.links, h), boots); }
      case Deliver(h) =>
        if At(m.links, h).reports != [] { DeliverKeepsSync(m.row.observed, At(m.links, h)); }
      case _ =>
    }
  }

  lemma StepKeepsStaff(m: Machine, l: Label)
    requires Inv(m) && Staffed(Mine(m)) && !l.WorkerExits?
    ensures Staffed(Mine(Next(m, l)))
  {
  }

  lemma {:induction false} RunKeepsSync(m: Machine, labels: seq<Label>)
    requires Init(m) && forall i :: 0 <= i < |labels| ==> !labels[i].LoseReport?
    ensures InSync(Run(m, labels))
  {
    if labels != [] {
      var front := labels[..|labels| - 1];
      RunKeepsSync(m, front);
      RunKeepsInv(m, front);
      StepKeepsSync(Run(m, front), labels[|labels| - 1]);
    }
  }

  lemma {:induction false} RunKeepsStaff(m: Machine, labels: seq<Label>)
    requires Init(m) && forall i :: 0 <= i < |labels| ==> !labels[i].WorkerExits?
    ensures Staffed(Mine(Run(m, labels)))
  {
    if labels != [] {
      var front := labels[..|labels| - 1];
      RunKeepsStaff(m, front);
      RunKeepsInv(m, front);
      StepKeepsStaff(Run(m, front), labels[|labels| - 1]);
    }
  }

  // When no report was lost and none is under way, the stored state is exact: running if and only if
  // the agent's record says so, and, unless a worker ended by itself, if and only if one is live.
  lemma ObservedIsExact(m: Machine, labels: seq<Label>)
    requires Init(m) && forall i :: 0 <= i < |labels| ==> !labels[i].LoseReport?
    ensures var n := Run(m, labels);
            Mine(n).reports == [] ==>
              && (n.row.observed == Running <==> Mine(n).record == Up)
              && ((forall i :: 0 <= i < |labels| ==> !labels[i].WorkerExits?) ==>
                    (n.row.observed == Running <==> Mine(n).workers == 1))
  {
    RunKeepsInv(m, labels);
    RunKeepsSync(m, labels);
    if forall i :: 0 <= i < |labels| ==> !labels[i].WorkerExits? { RunKeepsStaff(m, labels); }
  }

  function Started(m: Machine, h: HostId): Machine
  {
    Next(Next(Next(m, Load), Act(Some(h), true)), Receive(h, true))
  }

  // Both conditions matter. A lost report leaves a live worker unseen; a worker that ended by itself
  // leaves `Running` standing, for the agent watches no worker.
  lemma ObservedMisleads(m: Machine, h: HostId)
    requires Init(m) && m.row.desired
    ensures var n := Next(Started(m, h), LoseReport(h, 0));
            Mine(n).reports == [] && Mine(n).workers == 1 && n.row.observed == Created
    ensures var n := Next(Next(Started(m, h), Deliver(h)), WorkerExits(h));
            Mine(n).reports == [] && Mine(n).workers == 0 && n.row.observed == Running
  {
    var sent := Next(Next(m, Load), Act(Some(h), true));
    assert At(sent.links, h) == IDLE.(orders := [true]);
    assert At(Started(m, h).links, h) == Link([], Up, 1, [Running]);
  }
}
