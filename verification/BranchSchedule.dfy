// A scheduler that gives every thread of a machine its turn, and what it achieves: on every booted machine
// with a vCPU there is a fair run that performs any operation to its successful end.
module BranchSchedule {
  import opened Prelude
  import opened RamImage
  import opened LiveBranch
  import opened BranchProofs
  import opened BranchCoherence
  import opened BranchProgress
  import opened BranchLiveness
  import opened Chains
  import opened Queues

  // --- whose turn it is ------------------------------------------------------------------------

  // A participant's next step that is not guest work; None while it waits.
  function NextAct(p: Participant, b: Checkpoint): Option<Act>
  {
    match p.pc
    case Check => Some(Poll)
    case Run => if p.kind.Vcpu? then Some(ExitGuest) else if p.wake then Some(Wakened) else None
    case Drain => Some(Drained)
    case Capture => Some(Store)
    case Decide => Some(ParkOrExit)
    case Enter => Some(CountIn)
    case Spin => if b.released then Some(SeeRelease) else None
    case Leave => Some(CountOut)
    case Exited => None
  }

  ghost function CopyOrder(m: Memory): Order
  {
    if AllCopied(m) then CopyDone
    else
      var r: nat, off: nat :| r < |m.ram| && off < |m.ram[r]| && (r, off) !in m.copied;
      CopyByte(r, off)
  }

  // The orchestrator's next step towards success, over and over; None while it waits. `stops` is
  // whether switching dirty logging off succeeds.
  ghost function NextOrder(s: State, op: Op, stops: bool): Option<Order>
  {
    match s.orch.phase
    case Idle => Some(Start(op))
    case ClearReleased => Some(StoreReleased)
    case SetRequested => Some(StoreRequested)
    case Wake(_) => Some(WakeNext)
    case Await => if s.barrier.parked >= Total(s.parts, s.orch.op) then Some(AllParked) else None
    case Held(_) => Some(if BodyDone(s.orch) then FinishBody(stops) else BodyStep(s.orch))
    case ClearRequested => Some(WithdrawRequest)
    case SetReleased => Some(Release)
    case AwaitResumed => if s.barrier.parked == 0 then Some(AllResumed) else None
    case Copying => Some(CopyOrder(s.mem))
  }

  // The orchestrator's turn is the first of a round, then each participant has one.
  ghost function Turn(s: State, who: nat, op: Op, stops: bool): Option<Step>
  {
    if who == 0 then
      var order := NextOrder(s, op, stops);
      if order.None? then None else Some(Orch(order.value))
    else if who <= |s.parts| then
      var act := NextAct(s.parts[who - 1], s.barrier);
      if act.None? then None else Some(Part(who - 1, act.value))
    else None
  }

  function Taking(s: State, step: Option<Step>): State
  {
    if step.Some? && Enabled(s, step.value) then Apply(s, step.value) else s
  }

  ghost function After(s: State, op: Op, stops: bool, n: nat): State
  {
    if n == 0 then s
    else
      var t := After(s, op, stops, n - 1);
      Taking(t, Turn(t, Whose(n - 1, |s.parts|), op, stops))
  }

  ghost function Scheduled(s: State, op: Op, stops: bool): Behaviour
  {
    (n: nat) => After(s, op, stops, n)
  }

  ghost function Turns(s: State, op: Op, stops: bool): Schedule
  {
    (n: nat) => Turn(After(s, op, stops, n), Whose(n, |s.parts|), op, stops)
  }

  // --- every turn can be taken --------------------------------------------------------------------

  // No guest work is done, so nothing is ever left to mark.
  predicate Unwritten(s: State)
  {
    forall i :: 0 <= i < |s.parts| ==> s.parts[i].unmarked == {}
  }

  lemma ActIsPossible(s: State, i: nat)
    requires BarrierInv(s) && Unwritten(s) && i < |s.parts|
    ensures var act := NextAct(s.parts[i], s.barrier);
            if act.None? then Blocked(s.parts[i], s.barrier)
            else CanAct(s.parts[i], act.value, s.barrier, s.mem.ram) && !GuestWork(act.value)
  {
    assert PartOk(s.parts[i], i, s.orch);
    if s.parts[i].pc.Leave? && Count(s.parts) == 0 { NoneCounted(s.parts); }
  }

  lemma CopyIsPossible(s: State)
    requires Inv(s) && s.orch.phase.Copying?
    ensures CanOrder(s, CopyOrder(s.mem))
  {
    var m := s.mem;
    if !AllCopied(m) { BaseMonotone(Lens(m.ram), CopyOrder(m).r, |m.ram|); }
  }

  lemma OrderIsPossible(s: State, op: Op, stops: bool)
    requires Inv(s)
    ensures var order := NextOrder(s, op, stops);
            if order.None? then OrchBlocked(s) else CanOrder(s, order.value)
  {
    if s.orch.phase.Copying? { CopyIsPossible(s); }
    if s.orch.phase.Held? { BodyCanStep(s); }
  }

  lemma TurnIsPossible(s: State, who: nat, op: Op, stops: bool)
    requires Inv(s) && Unwritten(s)
    ensures var step := Turn(s, who, op, stops);
            step.Some? ==> Enabled(s, step.value) && (step.value.Part? ==> !GuestWork(step.value.act))
  {
    if who == 0 {
      OrderIsPossible(s, op, stops);
    } else if who <= |s.parts| {
      ActIsPossible(s, who - 1);
    }
  }

  predicate SameKinds(s: State, t: State)
  {
    |s.parts| == |t.parts| && forall i :: 0 <= i < |s.parts| ==> t.parts[i].kind == s.parts[i].kind
  }

  lemma TurnKeepsParts(s: State, step: Step)
    requires Unwritten(s) && Enabled(s, step) && (step.Part? ==> !GuestWork(step.act))
    ensures Unwritten(Apply(s, step)) && SameKinds(s, Apply(s, step))
  {
  }

  // What every turn keeps.
  ghost predicate Running(s: State, t: State)
  {
    Inv(t) && Unwritten(t) && SameKinds(s, t)
  }

  lemma TurnKeepsRunning(s: State, t: State, who: nat, op: Op, stops: bool)
    requires Running(s, t)
    ensures Running(s, Taking(t, Turn(t, who, op, stops)))
  {
    var step := Turn(t, who, op, stops);
    TurnIsPossible(t, who, op, stops);
    if step.Some? {
      StepKeepsInv(t, step.value);
      TurnKeepsParts(t, step.value);
    }
  }

  lemma {:induction false} StaysRunning(s: State, op: Op, stops: bool, n: nat)
    requires Init(s)
    ensures Running(s, After(s, op, stops, n))
  {
    if n == 0 {
      InitHolds(s);
    } else {
      StaysRunning(s, op, stops, n - 1);
      TurnKeepsRunning(s, After(s, op, stops, n - 1), Whose(n - 1, |s.parts|), op, stops);
    }
  }

  lemma TurnIsTaken(s: State, op: Op, stops: bool, n: nat)
    requires Init(s)
    ensures Steps(Scheduled(s, op, stops), Turns(s, op, stops), n)
  {
    StaysRunning(s, op, stops, n);
    TurnIsPossible(After(s, op, stops, n), Whose(n, |s.parts|), op, stops);
  }

  // --- the schedule is fair ---------------------------------------------------------------------------

  lemma PartTakesTurn(s: State, t: State, i: nat, op: Op, stops: bool)
    requires Running(s, t) && i < |t.parts|
    ensures MovesOn(Turn(t, i + 1, op, stops), i) || Blocked(t.parts[i], t.barrier)
  {
    ActIsPossible(t, i);
  }

  lemma OrchTakesTurn(t: State, op: Op, stops: bool)
    requires Inv(t)
    ensures var step := Turn(t, 0, op, stops); (step.Some? && step.value.Orch?) || OrchBlocked(t)
  {
    OrderIsPossible(t, op, stops);
  }

  lemma PartHasTurns(s: State, op: Op, stops: bool, i: nat, n: nat)
    requires Init(s)
    ensures PartTurnAfter(Scheduled(s, op, stops), Turns(s, op, stops), i, n)
  {
    var run, labels := Scheduled(s, op, stops), Turns(s, op, stops);
    var k := n;
    if i < |s.parts| { k := ComesRound(n, i + 1, |s.parts|); }
    StaysRunning(s, op, stops, k);
    if i < |s.parts| { PartTakesTurn(s, After(s, op, stops, k), i, op, stops); }
    assert n <= k && PartTurn(run, labels, i, k);
  }

  lemma OrchHasTurns(s: State, op: Op, stops: bool, n: nat)
    requires Init(s)
    ensures OrchTurnAfter(Scheduled(s, op, stops), Turns(s, op, stops), n)
  {
    var run, labels := Scheduled(s, op, stops), Turns(s, op, stops);
    var k := ComesRound(n, 0, |s.parts|);
    StaysRunning(s, op, stops, k);
    OrchTakesTurn(After(s, op, stops, k), op, stops);
    assert n <= k && OrchTurn(run, labels, k);
  }

  lemma ScheduleIsFair(s: State, op: Op, stops: bool)
    requires Init(s)
    ensures var run, labels := Scheduled(s, op, stops), Turns(s, op, stops);
            IsRun(run, labels) && Fair(run, labels) && run(0) == s
  {
    var run, labels := Scheduled(s, op, stops), Turns(s, op, stops);
    forall n: nat ensures Steps(run, labels, n) { TurnIsTaken(s, op, stops, n); }
    forall n: nat, i: nat ensures PartTurnAfter(run, labels, i, n) { PartHasTurns(s, op, stops, i, n); }
    forall n: nat ensures OrchTurnAfter(run, labels, n) { OrchHasTurns(s, op, stops, n); }
  }

  // --- and gets operations done -------------------------------------------------------------------------

  predicate HasVcpu(s: State)
  {
    exists i :: 0 <= i < |s.parts| && s.parts[i].kind.Vcpu?
  }

  // The operation is under way or has succeeded, a branch with its second barrier; and unless it is
  // switched off, logging stays on.
  predicate Going(s: State, op: Op, stops: bool)
  {
    && s.orch.op == op && !s.orch.failed && !s.orch.stage.Abort?
    && (op.Branch? && s.orch.phase.Idle? ==> s.orch.stage.Final?)
    && (!stops && s.orch.stage.Final? ==> s.mem.logging)
  }

  lemma StartGoes(s: State, op: Op, stops: bool)
    requires s.orch.phase.Idle? && HasVcpu(s)
    ensures Going(Ordered(s, Start(op)), op, stops) && !Ordered(s, Start(op)).orch.phase.Idle?
  {
    var i :| 0 <= i < |s.parts| && s.parts[i].kind.Vcpu?;
    assert s.parts[i] in s.parts;
  }

  lemma OrderGoes(s: State, op: Op, stops: bool)
    requires Inv(s) && Going(s, op, stops) && !s.orch.phase.Idle?
    requires NextOrder(s, op, stops).Some? && CanOrder(s, NextOrder(s, op, stops).value)
    ensures Going(Ordered(s, NextOrder(s, op, stops).value), op, stops)
  {
    var order := NextOrder(s, op, stops).value;
    StepLogs(s, Orch(order));
    if order.TakeStates? { FreshSlotsCollect(s.parts, s.orch.op, s.orch.cycle); }
  }

  lemma VcpuStays(s: State, t: State)
    requires HasVcpu(s) && SameKinds(s, t)
    ensures HasVcpu(t)
  {
    var i :| 0 <= i < |s.parts| && s.parts[i].kind.Vcpu?;
    assert t.parts[i].kind.Vcpu?;
  }

  lemma TurnGoes(s: State, t: State, who: nat, op: Op, stops: bool)
    requires HasVcpu(s) && Running(s, t) && Going(t, op, stops)
    ensures Going(Taking(t, Turn(t, who, op, stops)), op, stops)
  {
    TurnIsPossible(t, who, op, stops);
    var step := Turn(t, who, op, stops);
    if step.Some? {
      if step.value.Orch? {
        if t.orch.phase.Idle? {
          VcpuStays(s, t);
          StartGoes(t, op, stops);
        } else {
          OrderGoes(t, op, stops);
        }
      } else {
        StepLogs(t, step.value);
      }
    }
  }

  lemma GoesOn(s: State, op: Op, stops: bool, n: nat)
    requires Init(s) && HasVcpu(s) && Going(After(s, op, stops, n), op, stops)
    ensures Going(After(s, op, stops, n + 1), op, stops)
  {
    StaysRunning(s, op, stops, n);
    TurnGoes(s, After(s, op, stops, n), Whose(n, |s.parts|), op, stops);
  }

  lemma KeepsGoing(s: State, op: Op, stops: bool, n: nat, k: nat)
    requires Init(s) && HasVcpu(s) && Going(After(s, op, stops, n), op, stops) && n <= k
    ensures Going(After(s, op, stops, k), op, stops)
  {
    var run := Scheduled(s, op, stops);
    forall i: nat | n <= i < k &&
        Going(run(i), op, stops) ensures Going(run(i + 1), op, stops) { GoesOn(s, op, stops, i); }
    Persists(run, (t: State) => Going(t, op, stops), n, k);
  }

  lemma ItStarts(s: State, op: Op, stops: bool)
    requires Init(s) && HasVcpu(s)
    ensures var t := After(s, op, stops, 1); Going(t, op, stops) && !t.orch.phase.Idle?
  {
    StartGoes(s, op, stops);
    assert After(s, op, stops, 0) == s && Turn(s, Whose(0, |s.parts|), op, stops) == Some(Orch(Start(op)));
  }

  predicate UnderWay(s: State, op: Op)
  {
    s.orch.op == op && !s.orch.phase.Idle?
  }

  predicate Succeeded(s: State, op: Op)
  {
    s.orch.op == op && s.orch.phase.Idle? && !s.orch.failed && s.orch.image.Some?
  }

  lemma GoingSucceeds(s: State, op: Op, stops: bool)
    requires Inv(s) && Going(s, op, stops) && s.orch.phase.Idle?
    ensures Succeeded(s, op) && (op.Branch? && !stops ==> s.mem.logging)
  {
  }

  lemma EndsWell(s: State, op: Op, stops: bool, n: nat, k: nat)
    requires Init(s) && HasVcpu(s) && Going(After(s, op, stops, n), op, stops) && n <= k
    requires After(s, op, stops, k).orch.phase.Idle?
    ensures Succeeded(After(s, op, stops, k), op) && (op.Branch? && !stops ==> After(s, op, stops, k).mem.logging)
  {
    KeepsGoing(s, op, stops, n, k);
    StaysRunning(s, op, stops, k);
    GoingSucceeds(After(s, op, stops, k), op, stops);
  }

  lemma ComesToAnEnd(s: State, op: Op, stops: bool, n: nat) returns (k: nat)
    requires Init(s)
    ensures n <= k && After(s, op, stops, k).orch.phase.Idle?
  {
    ScheduleIsFair(s, op, stops);
    k := EveryOperationEnds(Scheduled(s, op, stops), Turns(s, op, stops), n);
  }

  // Every operation can be performed in a fair run of every machine that has a vCPU: the schedule's is
  // one, the operation is under way at some point of it and has succeeded at a later one.
  lemma OperationsSucceed(s: State, op: Op, stops: bool) returns (n: nat, k: nat)
    requires Init(s) && HasVcpu(s)
    ensures n <= k && UnderWay(Scheduled(s, op, stops)(n), op) && Succeeded(Scheduled(s, op, stops)(k), op)
    ensures op.Branch? && !stops ==> Scheduled(s, op, stops)(k).mem.logging
  {
    ItStarts(s, op, stops);
    n := 1;
    k := ComesToAnEnd(s, op, stops, n);
    EndsWell(s, op, stops, n, k);
  }

  // --- finite runs ------------------------------------------------------------------------------------------

  function Performed(labels: Schedule, n: nat): seq<Step>
  {
    if n == 0 then []
    else Performed(labels, n - 1) + (if labels(n - 1).Some? then [labels(n - 1).value] else [])
  }

  lemma ExecuteMore(s: State, steps: seq<Step>, t: State, step: Option<Step>, u: State)
    requires Execute(s, steps) == Some(t)
    requires if step.None? then u == t else Enabled(t, step.value) && u == Apply(t, step.value)
    ensures Execute(s, steps + (if step.Some? then [step.value] else [])) == Some(u)
  {
    if step.Some? {
      assert (steps + [step.value])[..|steps|] == steps;
    } else {
      assert steps + [] == steps;
    }
  }

  lemma {:induction false} PrefixExecutes(run: Behaviour, labels: Schedule, n: nat)
    requires IsRun(run, labels)
    ensures Execute(run(0), Performed(labels, n)) == Some(run(n))
  {
    if n > 0 {
      PrefixExecutes(run, labels, n - 1);
      assert Steps(run, labels, n - 1);
      ExecuteMore(run(0), Performed(labels, n - 1), run(n - 1), labels(n - 1), run(n));
    }
  }

  // The ignored error: on every machine with a vCPU there is a run in which a branch succeeds, the
  // barrier is idle again, and dirty logging is still on.
  lemma StopFailureOutlivesTheBranch(s: State) returns (steps: seq<Step>, t: State)
    requires Init(s) && HasVcpu(s)
    ensures Execute(s, steps) == Some(t) && t.orch.phase.Idle? && t.orch.op.Branch?
    ensures !t.orch.failed && t.orch.image.Some? && t.mem.logging && LeftOn(s, steps)
  {
    var _, k := OperationsSucceed(s, Branch, false);
    t := Scheduled(s, Branch, false)(k);
    steps := ScheduleExecutes(s, Branch, false, k);
    LoggingIsExact(s, steps, t);
  }

  lemma ScheduleExecutes(s: State, op: Op, stops: bool, k: nat) returns (steps: seq<Step>)
    requires Init(s)
    ensures Execute(s, steps) == Some(Scheduled(s, op, stops)(k))
  {
    ScheduleIsFair(s, op, stops);
    steps := Performed(Turns(s, op, stops), k);
    PrefixExecutes(Scheduled(s, op, stops), Turns(s, op, stops), k);
  }
}
