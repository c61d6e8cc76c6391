// The measure behind both waits of the barrier: each participant is a bounded number of its own steps
// away from where it is waited for, no step of anyone takes it further, and until the wait is over
// somebody has such a step to take. That the waits do end is in `BranchLiveness`.
module BranchProgress {
  import opened Prelude
  import opened RamImage
  import opened LiveBranch
  import opened BranchProofs
  import opened BranchCoherence

  // Steps left before the participant is parked, or before it has left the barrier again.
  function Away(p: Participant, leaving: bool): nat
  {
    match p.pc
    case Run => if leaving then 0 else if p.kind.Vcpu? then 4 else 5
    case Check => if leaving then 0 else 3
    case Drain => if leaving then 0 else 4
    case Capture => if leaving then 0 else if p.kind.Vcpu? then 2 else 3
    case Decide => if leaving then 0 else 2
    case Enter => if leaving then 0 else 1
    case Spin => if leaving then 2 else 0
    case Leave => if leaving then 1 else 0
    case Exited => 0
  }

  function Weight(p: Participant, op: Op, leaving: bool): nat
  {
    if Active(p, op) then Away(p, leaving) else 0
  }

  function Distance(parts: seq<Participant>, op: Op, leaving: bool): nat
  {
    if parts == [] then 0
    else Distance(parts[..|parts| - 1], op, leaving) + Weight(parts[|parts| - 1], op, leaving)
  }

  lemma {:induction false} DistanceUpdate(parts: seq<Participant>, i: nat, p: Participant, op: Op, leaving: bool)
    requires i < |parts|
    ensures Distance(parts[i := p], op, leaving) ==
            Distance(parts, op, leaving) - Weight(parts[i], op, leaving) + Weight(p, op, leaving)
  {
    var n := |parts| - 1;
    if i < n {
      DistanceUpdate(parts[..n], i, p, op, leaving);
      assert parts[i := p][..n] == parts[..n][i := p];
    } else {
      assert parts[i := p][..n] == parts[..n];
    }
  }

  lemma {:induction false} DistanceZero(parts: seq<Participant>, op: Op, leaving: bool)
    ensures Distance(parts, op, leaving) == 0 <==> forall i :: 0 <= i < |parts| ==> Weight(parts[i], op, leaving) == 0
  {
    if parts != [] {
      DistanceZero(parts[..|parts| - 1], op, leaving);
      assert forall i :: 0 <= i < |parts| - 1 ==> parts[..|parts| - 1][i] == parts[i];
    }
  }

  // The guest's own work; everything else moves a participant along.
  predicate GuestWork(act: Act) { act.Work? || act.Write? || act.Mark? }

  predicate Waiting(o: Orchestrator, leaving: bool)
  {
    if leaving then o.phase.AwaitResumed? else o.phase.Await?
  }

  lemma ActComesCloser(p: Participant, i: nat, act: Act, s: State, leaving: bool)
    requires BarrierInv(s) && Waiting(s.orch, leaving) && i < |s.parts| && p == s.parts[i]
    requires CanAct(p, act, s.barrier, s.mem.ram) && Active(p, s.orch.op)
    ensures Away(Acted(p, act, s.barrier, s.orch.cycle), leaving) <= Away(p, leaving)
    ensures !GuestWork(act) && Away(p, leaving) > 0 ==>
            Away(Acted(p, act, s.barrier, s.orch.cycle), leaving) < Away(p, leaving)
  {
    assert PartOk(s.parts[i], i, s.orch);
  }

  // During a wait no participant's step increases the distance, and a step of one still on its way
  // that is not guest work decreases it.
  lemma WaitShrinks(s: State, i: nat, act: Act, leaving: bool)
    requires BarrierInv(s) && Waiting(s.orch, leaving) && Enabled(s, Part(i, act))
    ensures Distance(Participate(s, i, act).parts, s.orch.op, leaving) <= Distance(s.parts, s.orch.op, leaving)
    ensures Weight(s.parts[i], s.orch.op, leaving) > 0 && !GuestWork(act) ==>
              Distance(Participate(s, i, act).parts, s.orch.op, leaving) < Distance(s.parts, s.orch.op, leaving)
  {
    var p := Acted(s.parts[i], act, s.barrier, s.orch.cycle);
    DistanceUpdate(s.parts, i, p, s.orch.op, leaving);
    if Active(s.parts[i], s.orch.op) { ActComesCloser(s.parts[i], i, act, s, leaving); }
  }

  lemma {:induction false} EverybodyCounted(parts: seq<Participant>, op: Op)
    requires forall i :: 0 <= i < |parts| && Active(parts[i], op) ==> Counted(parts[i])
    ensures Count(parts) >= Total(parts, op)
  {
    if parts != [] { EverybodyCounted(parts[..|parts| - 1], op); }
  }

  // The orchestrator's wait is over exactly when the distance is zero.
  lemma WaitIsOver(s: State, leaving: bool)
    requires BarrierInv(s) && Waiting(s.orch, leaving)
    ensures Distance(s.parts, s.orch.op, leaving) == 0 <==> Enabled(s, Orch(if leaving then AllResumed else AllParked))
  {
    var op := s.orch.op;
    DistanceZero(s.parts, op, leaving);
    assert forall i :: 0 <= i < |s.parts| ==> PartOk(s.parts[i], i, s.orch);
    if leaving {
      if s.barrier.parked == 0 { NoneCounted(s.parts); }
      if Distance(s.parts, op, leaving) == 0 { CountZero(s.parts); }
    } else {
      AllCounted(s.parts, op);
      if Distance(s.parts, op, leaving) == 0 { EverybodyCounted(s.parts, op); }
    }
  }

  // The step a waited-for participant has to take next: mark a written page, or move along.
  lemma OwnStep(p: Participant, i: nat, s: State, leaving: bool) returns (act: Act)
    requires BarrierInv(s) && Waiting(s.orch, leaving) && i < |s.parts| && p == s.parts[i]
    requires Weight(p, s.orch.op, leaving) > 0
    ensures CanAct(p, act, s.barrier, s.mem.ram) && (act.Mark? || !GuestWork(act))
  {
    assert PartOk(s.parts[i], i, s.orch);
    if p.unmarked != {} && Serving(p) {
      var page :| page in p.unmarked;
      act := Mark(page.0, page.1);
    } else {
      match p.pc {
        case Run => act := if p.kind.Vcpu? then ExitGuest else Wakened;
        case Check => act := Poll;
        case Drain => act := Drained;
        case Capture => act := Store;
        case Decide => act := ParkOrExit;
        case Enter => act := CountIn;
        case Spin => act := SeeRelease;
        case Leave =>
          act := CountOut;
          if Count(s.parts) == 0 { NoneCounted(s.parts); }
      }
    }
  }

  lemma WaitStep(t: State, leaving: bool) returns (next: Step)
    requires BarrierInv(t) && Waiting(t.orch, leaving)
    ensures Enabled(t, next)
    ensures next.Part? ==> (next.act.Mark? || !GuestWork(next.act)) && Weight(t.parts[next.i], t.orch.op, leaving) > 0
  {
    WaitIsOver(t, leaving);
    DistanceZero(t.parts, t.orch.op, leaving);
    if Distance(t.parts, t.orch.op, leaving) == 0 {
      next := Orch(if leaving then AllResumed else AllParked);
    } else {
      var i :| 0 <= i < |t.parts| && Weight(t.parts[i], t.orch.op, leaving) > 0;
      var act := OwnStep(t.parts[i], i, t, leaving);
      next := Part(i, act);
    }
  }

  // The next step of a body on its way to success.
  function BodyStep(o: Orchestrator): Order
    requires o.phase.Held?
  {
    if BodyDone(o) then FinishBody(true)
    else if o.op.Branch? && o.stage.First? then if o.phase.did == 0 then EnableLogging else DrainLogs
    else if o.phase.did == 0 then TakeStates
    else if o.op.Branch? then RecopyPages
    else DumpRam
  }

  lemma BodyCanStep(s: State)
    requires Inv(s) && s.orch.phase.Held?
    ensures Enabled(s, Orch(BodyStep(s.orch)))
  {
    if At(s.orch, Branch, Final, Held(1)) { RecopyIsCoherent(s); }
  }

  lemma CopyCanStep(s: State) returns (order: Order)
    requires Inv(s) && s.orch.phase.Copying?
    ensures CanOrder(s, order) && (order.CopyByte? || order.CopyDone?)
    ensures order.CopyByte? ==> (order.r, order.off) !in s.mem.copied
  {
    var m := s.mem;
    if AllCopied(m) {
      order := CopyDone;
    } else {
      var r, off :| 0 <= r < |m.ram| && 0 <= off < |m.ram[r]| && (r, off) !in m.copied;
      BaseMonotone(Lens(m.ram), r, |m.ram|);
      order := CopyByte(r, off);
    }
  }

  // Steps on the way to a successful end: no new guest work, and no failure.
  predicate Advances(next: Step)
  {
    match next
    case Part(_, act) => act.Mark? || !GuestWork(act)
    case Orch(order) => !order.FailBody? && !order.CopyFailed?
  }

  // No run ever gets stuck: outside `Idle` the orchestrator can go on towards success, or a
  // participant it waits for has a step of its own that is not new guest work.
  lemma NeverStuck(s: State, steps: seq<Step>, t: State) returns (next: Step)
    requires Init(s) && Execute(s, steps) == Some(t) && !t.orch.phase.Idle?
    ensures Enabled(t, next) && Advances(next)
    ensures next.Part? ==> Weight(t.parts[next.i], t.orch.op, t.orch.phase.AwaitResumed?) > 0
  {
    EveryRunKeepsInv(s, steps, t);
    match t.orch.phase {
      case Await => next := WaitStep(t, false);
      case AwaitResumed => next := WaitStep(t, true);
      case Held(_) =>
        BodyCanStep(t);
        next := Orch(BodyStep(t.orch));
      case Copying =>
        var order := CopyCanStep(t);
        next := Orch(order);
      case _ => next := FlagStep(t);
    }
  }

  lemma FlagStep(t: State) returns (next: Step)
    requires BarrierInv(t)
    requires t.orch.phase.ClearReleased? || t.orch.phase.SetRequested? || t.orch.phase.Wake? ||
             t.orch.phase.ClearRequested? || t.orch.phase.SetReleased?
    ensures next.Orch? && Enabled(t, next) && Advances(next)
  {
    match t.orch.phase {
      case ClearReleased => next := Orch(StoreReleased);
      case SetRequested => next := Orch(StoreRequested);
      case Wake(_) => next := Orch(WakeNext);
      case ClearRequested => next := Orch(WithdrawRequest);
      case SetReleased => next := Orch(Release);
    }
  }
}
