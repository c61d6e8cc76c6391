// What holds in every interleaving of the checkpoint barrier: nobody moves while it is closed,
// the captures belong to the current cycle, and a branch image is coherent at the final barrier.
module BranchProofs {
  import opened Prelude
  import opened RamImage
  import opened DirtyPages
  import opened LiveBranch

  // --- the barrier -----------------------------------------------------------

  ghost predicate FlagsOk(b: Checkpoint, phase: Phase)
  {
    match phase
    case Idle => !b.requested
    case Copying => !b.requested
    case ClearReleased => !b.requested
    case SetRequested => !b.requested && !b.released
    case Wake(_) => b.requested && !b.released
    case Await => b.requested && !b.released
    case Held(_) => b.requested && !b.released
    case ClearRequested => b.requested && !b.released
    case SetReleased => !b.requested && !b.released
    case AwaitResumed => !b.requested && b.released
  }

  // The slot holds this cycle's capture of the participant's present state.
  ghost predicate Fresh(p: Participant, cycle: nat)
  {
    p.slot == Some(Captured(p.local, cycle))
  }

  predicate Counted(p: Participant) { p.pc.Spin? || p.pc.Leave? }

  // A participant on its way to the barrier.
  ghost predicate Gathering(p: Participant, called: bool, cycle: nat)
  {
    if !called then Free(p)
    else
      && (if p.kind.Vcpu? then !p.wake && (p.pc.Check? || p.pc.Run? || p.pc.Capture? || p.pc.Enter? || p.pc.Spin?)
          else if p.wake then p.pc.Run?
          else p.pc.Drain? || p.pc.Capture? || p.pc.Decide? || p.pc.Enter? || p.pc.Spin?)
      && (p.pc.Decide? || p.pc.Enter? || p.pc.Spin? ==> Fresh(p, cycle))
  }

  ghost predicate PartOk(p: Participant, i: nat, o: Orchestrator)
  {
    && (p.unmarked != {} ==> Serving(p))
    && match o.phase
       case Idle => Free(p)
       case Copying => Free(p)
       case ClearReleased => Free(p)
       case SetRequested => Free(p)
       case Wake(n) => Gathering(p, p.kind.Vcpu? || (Includes(o.op) && i < n), o.cycle)
       case Await => Gathering(p, Active(p, o.op), o.cycle)
       case Held(n) => if Active(p, o.op) then p.pc.Spin? && !p.wake && (n == 0 ==> Fresh(p, o.cycle)) else Free(p)
       case ClearRequested => if Active(p, o.op) then p.pc.Spin? && !p.wake else Free(p)
       case SetReleased => if Active(p, o.op) then p.pc.Spin? && !p.wake else Free(p)
       case AwaitResumed => Free(p) || (Active(p, o.op) && Counted(p) && !p.wake)
  }

  ghost predicate AllPartsOk(parts: seq<Participant>, o: Orchestrator)
  {
    forall i :: 0 <= i < |parts| ==> PartOk(parts[i], i, o)
  }

  function Count(parts: seq<Participant>): nat
  {
    if parts == [] then 0
    else Count(parts[..|parts| - 1]) + (if Counted(parts[|parts| - 1]) then 1 else 0)
  }

  ghost predicate BarrierInv(s: State)
  {
    && FlagsOk(s.barrier, s.orch.phase)
    && s.barrier.parked == Count(s.parts)
    && AllPartsOk(s.parts, s.orch)
    && (s.orch.phase.Wake? ==> s.orch.phase.next <= |s.parts|)
  }

  lemma {:induction false} CountUpdate(parts: seq<Participant>, i: nat, p: Participant)
    requires i < |parts|
    ensures Count(parts[i := p]) ==
            Count(parts) - (if Counted(parts[i]) then 1 else 0) + (if Counted(p) then 1 else 0)
  {
    var n := |parts| - 1;
    if i < n {
      CountUpdate(parts[..n], i, p);
      assert parts[i := p][..n] == parts[..n][i := p];
    } else {
      assert parts[i := p][..n] == parts[..n];
    }
  }

  lemma {:induction false} CountTaken(parts: seq<Participant>, op: Op)
    ensures Count(Taken(parts, op)) == Count(parts)
  {
    if parts != [] {
      CountTaken(parts[..|parts| - 1], op);
      assert Taken(parts, op)[..|parts| - 1] == Taken(parts[..|parts| - 1], op);
    }
  }

  // When only awaited participants can be counted, counting them all means all are there.
  lemma {:induction false} AllCounted(parts: seq<Participant>, op: Op)
    requires forall i :: 0 <= i < |parts| && Counted(parts[i]) ==> Active(parts[i], op)
    ensures Count(parts) <= Total(parts, op)
    ensures Count(parts) == Total(parts, op) ==>
              forall i :: 0 <= i < |parts| && Active(parts[i], op) ==> Counted(parts[i])
  {
    if parts != [] {
      AllCounted(parts[..|parts| - 1], op);
    }
  }

  lemma {:induction false} NoneCounted(parts: seq<Participant>)
    requires Count(parts) == 0
    ensures forall i :: 0 <= i < |parts| ==> !Counted(parts[i])
  {
    if parts != [] {
      NoneCounted(parts[..|parts| - 1]);
    }
  }

  lemma {:induction false} CountZero(parts: seq<Participant>)
    requires forall i :: 0 <= i < |parts| ==> !Counted(parts[i])
    ensures Count(parts) == 0
  {
    if parts != [] {
      CountZero(parts[..|parts| - 1]);
    }
  }

  lemma ActKeepsPart(p: Participant, i: nat, act: Act, b: Checkpoint, ram: Ram, o: Orchestrator)
    requires FlagsOk(b, o.phase) && PartOk(p, i, o) && CanAct(p, act, b, ram)
    ensures PartOk(Acted(p, act, b, o.cycle), i, o)
  {
  }

  lemma ParticipantKeepsBarrier(s: State, i: nat, act: Act)
    requires BarrierInv(s) && Enabled(s, Part(i, act))
    ensures BarrierInv(Participate(s, i, act))
  {
    var p := Acted(s.parts[i], act, s.barrier, s.orch.cycle);
    ActKeepsPart(s.parts[i], i, act, s.barrier, s.mem.ram, s.orch);
    CountUpdate(s.parts, i, p);
  }

  predicate RequestOrder(order: Order)
  {
    order.Start? || order.StoreReleased? || order.StoreRequested? || order.WakeNext? || order.AllParked?
  }

  predicate BodyOrder(order: Order)
  {
    order.TakeStates? || order.EnableLogging? || order.DrainLogs? || order.DumpRam? || order.RecopyPages? ||
    order.FinishBody? || order.FailBody?
  }

  lemma ParkedKeepsBarrier(s: State)
    requires BarrierInv(s) && Enabled(s, Orch(AllParked))
    ensures BarrierInv(Ordered(s, AllParked))
  {
    AllCounted(s.parts, s.orch.op);
  }

  // A pause event is signalled, or there is none to signal.
  lemma SignalKeepsParts(s: State)
    requires BarrierInv(s) && s.orch.phase.Wake? && s.orch.phase.next < |s.parts|
    ensures AllPartsOk(Ordered(s, WakeNext).parts, Ordered(s, WakeNext).orch)
  {
    var n, t := s.orch.phase.next, Ordered(s, WakeNext);
    forall i | 0 <= i < |t.parts| ensures PartOk(t.parts[i], i, t.orch) {
      assert PartOk(s.parts[i], i, s.orch);
    }
  }

  lemma WakeKeepsBarrier(s: State)
    requires BarrierInv(s) && Enabled(s, Orch(WakeNext))
    ensures BarrierInv(Ordered(s, WakeNext))
  {
    var n := s.orch.phase.next;
    if n < |s.parts| {
      SignalKeepsParts(s);
      CountUpdate(s.parts, n, s.parts[n].(wake := true));
    } else {
      LastWakeKeepsParts(s);
    }
  }

  lemma LastWakeKeepsParts(s: State)
    requires BarrierInv(s) && s.orch.phase.Wake? && s.orch.phase.next == |s.parts|
    ensures AllPartsOk(s.parts, s.orch.(phase := Await))
  {
    forall i | 0 <= i < |s.parts| ensures PartOk(s.parts[i], i, s.orch.(phase := Await)) {
      assert PartOk(s.parts[i], i, s.orch);
    }
  }

  lemma RequestKeepsBarrier(s: State, order: Order)
    requires BarrierInv(s) && Enabled(s, Orch(order)) && RequestOrder(order)
    ensures BarrierInv(Ordered(s, order))
  {
    if order.AllParked? {
      ParkedKeepsBarrier(s);
    } else if order.WakeNext? {
      WakeKeepsBarrier(s);
    }
  }

  lemma TakeKeepsBarrier(s: State)
    requires BarrierInv(s) && Enabled(s, Orch(TakeStates))
    ensures BarrierInv(Ordered(s, TakeStates))
  {
    CountTaken(s.parts, s.orch.op);
  }

  lemma BodyKeepsBarrier(s: State, order: Order)
    requires BarrierInv(s) && Enabled(s, Orch(order)) && BodyOrder(order) && !order.TakeStates?
    ensures BarrierInv(Ordered(s, order))
  {
  }

  lemma ReleaseKeepsBarrier(s: State, order: Order)
    requires BarrierInv(s) && Enabled(s, Orch(order)) && !RequestOrder(order) && !BodyOrder(order)
    ensures BarrierInv(Ordered(s, order))
  {
    if order.AllResumed? {
      NoneCounted(s.parts);
    }
  }

  lemma OrderKeepsBarrier(s: State, order: Order)
    requires BarrierInv(s) && Enabled(s, Orch(order))
    ensures BarrierInv(Ordered(s, order))
  {
    if RequestOrder(order) {
      RequestKeepsBarrier(s, order);
    } else if order.TakeStates? {
      TakeKeepsBarrier(s);
    } else if BodyOrder(order) {
      BodyKeepsBarrier(s, order);
    } else {
      ReleaseKeepsBarrier(s, order);
    }
  }

  // --- control ---------------------------------------------------------------

  predicate Letting(phase: Phase)
  {
    phase.ClearRequested? || phase.SetReleased? || phase.AwaitResumed?
  }

  // Where dirty logging is on: from the arming of a branch to the end of its second barrier.
  predicate LoggingExpected(o: Orchestrator)
  {
    o.op.Branch? && match o.stage
      case First => o.phase == Held(1) || o.phase == Held(2) || o.phase.Copying? || (!o.failed && Letting(o.phase))
      case _ => !Letting(o.phase) && !o.phase.Idle?
  }

  ghost predicate ControlInv(s: State)
  {
    var o := s.orch;
    && (LoggingExpected(o) ==> s.mem.logging)
    && (!o.stage.First? ==> o.op.Branch? && !o.phase.Copying?)
    && (o.phase.Copying? ==> o.op.Branch? && !o.failed)
    && (o.phase.Held? ==> o.phase.did <= 2 && !o.failed)
    && (o.phase == Held(2) ==> o.op.Branch? || o.op.SnapshotInPlace?)
    && (!o.failed && Letting(o.phase) ==> o.image.Some? || (o.op.Branch? && o.stage.First?))
    && (o.phase.Idle? && !o.failed ==> o.image.Some?)
    && (o.image.Some? ==> (Letting(o.phase) || o.phase.Idle?) && !(o.op.Branch? && o.stage.First?))
    && (!Letting(o.phase) && !o.phase.Idle? ==> !o.failed)
  }

  // Nowhere else, as long as switching it off never failed.
  ghost predicate LoggingInv(s: State)
  {
    s.mem.logging ==> LoggingExpected(s.orch)
  }

  // The orders at which dirty logging is switched off, or should be: the end of a branch's first body
  // if it fails, and of its second however it ends.
  predicate StopAttempt(o: Orchestrator, step: Step)
  {
    step.Orch? && o.op.Branch? && (step.order.FailBody? || (step.order.FinishBody? && !o.stage.First?))
  }

  predicate Succeeds(order: Order)
  {
    (order.FailBody? && order.stops) || (order.FinishBody? && order.stops)
  }

  predicate StopFails(o: Orchestrator, step: Step)
  {
    StopAttempt(o, step) && !Succeeds(step.order)
  }

  // Full slots with fresh captures read back as the participants' present states.
  lemma {:induction false} FreshSlotsCollect(parts: seq<Participant>, op: Op, cycle: nat)
    requires forall i :: 0 <= i < |parts| && Active(parts[i], op) ==> Fresh(parts[i], cycle)
    ensures Collected(parts, op) == Some(Locals(parts, op))
  {
    if parts != [] {
      FreshSlotsCollect(parts[..|parts| - 1], op, cycle);
    }
  }

  lemma ParticipantKeepsControl(s: State, i: nat, act: Act)
    requires ControlInv(s) && Enabled(s, Part(i, act))
    ensures ControlInv(Participate(s, i, act))
  {
  }

  lemma TakeKeepsControl(s: State)
    requires BarrierInv(s) && ControlInv(s) && Enabled(s, Orch(TakeStates))
    ensures ControlInv(Ordered(s, TakeStates))
  {
    FreshSlotsCollect(s.parts, s.orch.op, s.orch.cycle);
  }

  lemma RequestKeepsControl(s: State, order: Order)
    requires ControlInv(s) && Enabled(s, Orch(order)) && RequestOrder(order)
    ensures ControlInv(Ordered(s, order))
  {
  }

  lemma BodyKeepsControl(s: State, order: Order)
    requires ControlInv(s) && Enabled(s, Orch(order)) && BodyOrder(order) && !order.TakeStates?
    ensures ControlInv(Ordered(s, order))
  {
  }

  lemma ReleaseKeepsControl(s: State, order: Order)
    requires ControlInv(s) && Enabled(s, Orch(order)) && !RequestOrder(order) && !BodyOrder(order)
    ensures ControlInv(Ordered(s, order))
  {
  }

  lemma OrderKeepsControl(s: State, order: Order)
    requires BarrierInv(s) && ControlInv(s) && Enabled(s, Orch(order))
    ensures ControlInv(Ordered(s, order))
  {
    if RequestOrder(order) {
      RequestKeepsControl(s, order);
    } else if order.TakeStates? {
      TakeKeepsControl(s);
    } else if BodyOrder(order) {
      BodyKeepsControl(s, order);
    } else {
      ReleaseKeepsControl(s, order);
    }
  }

  lemma RequestKeepsLogging(s: State, order: Order)
    requires ControlInv(s) && LoggingInv(s) && Enabled(s, Orch(order)) && RequestOrder(order)
    ensures LoggingInv(Ordered(s, order))
  {
  }

  lemma BodyKeepsLogging(s: State, order: Order)
    requires ControlInv(s) && LoggingInv(s) && Enabled(s, Orch(order)) && BodyOrder(order) &&
             !StopFails(s.orch, Orch(order))
    ensures LoggingInv(Ordered(s, order))
  {
  }

  lemma ReleaseKeepsLogging(s: State, order: Order)
    requires ControlInv(s) && LoggingInv(s) && Enabled(s, Orch(order)) && !RequestOrder(order) && !BodyOrder(order)
    ensures LoggingInv(Ordered(s, order))
  {
  }

  lemma StepKeepsLogging(s: State, step: Step)
    requires ControlInv(s) && LoggingInv(s) && Enabled(s, step) && !StopFails(s.orch, step)
    ensures LoggingInv(Apply(s, step))
  {
    if step.Orch? {
      if RequestOrder(step.order) {
        RequestKeepsLogging(s, step.order);
      } else if BodyOrder(step.order) {
        BodyKeepsLogging(s, step.order);
      } else {
        ReleaseKeepsLogging(s, step.order);
      }
    }
  }
}
