// Every operation on the barrier comes to an end in every fair infinite run: the orchestrator's waits
// are over some time, and so is everything in between.
module BranchLiveness {
  import opened Prelude
  import opened RamImage
  import opened LiveBranch
  import opened BranchProofs
  import opened BranchCoherence
  import opened BranchProgress

  // --- how far an operation is from its end ------------------------------------------------

  datatype Rank = Rank(a: nat, b: nat, c: nat)

  predicate Less(r: Rank, s: Rank)
  {
    r.a < s.a || (r.a == s.a && (r.b < s.b || (r.b == s.b && r.c < s.c)))
  }

  function PhaseRank(phase: Phase): nat
  {
    match phase
    case Idle => 0
    case Copying => 1
    case AwaitResumed => 2
    case SetReleased => 3
    case ClearRequested => 4
    case Held(_) => 5
    case Await => 6
    case Wake(_) => 7
    case SetRequested => 8
    case ClearReleased => 9
  }

  function Positions(lens: seq<nat>): set<(nat, nat)>
  {
    set r: nat, off: nat | r < |lens| && off < lens[r] :: (r, off)
  }

  // What is left to do within the phase.
  function Remaining(s: State): nat
  {
    match s.orch.phase
    case Wake(n) => if n <= |s.parts| then |s.parts| - n else 0
    case Await => Distance(s.parts, s.orch.op, false)
    case AwaitResumed => Distance(s.parts, s.orch.op, true)
    case Held(did) => if did <= 2 then 2 - did else 0
    case Copying => |Positions(Lens(s.mem.ram)) - s.mem.copied|
    case _ => 0
  }

  function RankOf(s: State): Rank
  {
    Rank(if s.orch.stage.First? then 1 else 0, PhaseRank(s.orch.phase), Remaining(s))
  }

  ghost predicate Lowered(s: State, t: State)
  {
    t.orch.phase.Idle? || Less(RankOf(t), RankOf(s))
  }

  lemma CopyLowers(s: State, r: nat, off: nat)
    requires CanOrder(s, CopyByte(r, off))
    ensures Lowered(s, Ordered(s, CopyByte(r, off)))
  {
    var left := Positions(Lens(s.mem.ram)) - s.mem.copied;
    assert (r, off) in left;
    assert Positions(Lens(s.mem.ram)) - (s.mem.copied + {(r, off)}) == left - {(r, off)};
  }

  lemma RequestLowers(s: State, order: Order)
    requires Inv(s) && !s.orch.phase.Idle? && CanOrder(s, order) && RequestOrder(order)
    ensures Lowered(s, Ordered(s, order))
  {
  }

  lemma BodyLowers(s: State, order: Order)
    requires Inv(s) && CanOrder(s, order) && BodyOrder(order)
    ensures Lowered(s, Ordered(s, order))
  {
  }

  lemma ReleaseLowers(s: State, order: Order)
    requires Inv(s) && CanOrder(s, order) && !RequestOrder(order) && !BodyOrder(order) && !order.CopyByte?
    ensures Lowered(s, Ordered(s, order))
  {
  }

  // Every step of the orchestrator brings an operation nearer to its end.
  lemma OrderLowers(s: State, order: Order)
    requires Inv(s) && !s.orch.phase.Idle? && CanOrder(s, order)
    ensures Lowered(s, Ordered(s, order))
  {
    if RequestOrder(order) {
      RequestLowers(s, order);
    } else if BodyOrder(order) {
      BodyLowers(s, order);
    } else if order.CopyByte? {
      CopyLowers(s, order.r, order.off);
    } else {
      ReleaseLowers(s, order);
    }
  }

  // The same operation at the same point, everyone waited for as far away as before.
  ghost predicate Unmoved(s: State, t: State)
  {
    && t.orch == s.orch && |t.parts| == |s.parts| && RankOf(t) == RankOf(s)
    && forall leaving, i :: 0 <= i < |s.parts| && Waiting(s.orch, leaving) ==>
         Weight(t.parts[i], s.orch.op, leaving) == Weight(s.parts[i], s.orch.op, leaving)
  }

  lemma WaitMoves(s: State, i: nat, act: Act, leaving: bool)
    requires Inv(s) && Waiting(s.orch, leaving) && Enabled(s, Part(i, act))
    ensures var t := Participate(s, i, act);
            && (Lowered(s, t) || Unmoved(s, t))
            && (Weight(s.parts[i], s.orch.op, leaving) > 0 && !GuestWork(act) ==> Lowered(s, t))
  {
    WaitShrinks(s, i, act, leaving);
    DistanceUpdate(s.parts, i, Acted(s.parts[i], act, s.barrier, s.orch.cycle), s.orch.op, leaving);
  }

  lemma OtherMoves(s: State, i: nat, act: Act)
    requires Inv(s) && Enabled(s, Part(i, act)) && !Waiting(s.orch, true) && !Waiting(s.orch, false)
    ensures Unmoved(s, Participate(s, i, act))
  {
    ActKeepsShape(s.mem, s.parts[i].kind, act);
  }

  // A participant's step never takes it further away.
  lemma PartMoves(s: State, i: nat, act: Act)
    requires Inv(s) && Enabled(s, Part(i, act))
    ensures Lowered(s, Participate(s, i, act)) || Unmoved(s, Participate(s, i, act))
  {
    if Waiting(s.orch, true) {
      WaitMoves(s, i, act, true);
    } else if Waiting(s.orch, false) {
      WaitMoves(s, i, act, false);
    } else {
      OtherMoves(s, i, act);
    }
  }

  // --- infinite runs ------------------------------------------------------------------------

  type Behaviour = nat -> State

  // What happens at each instant, if anything.
  type Schedule = nat -> Option<Step>

  ghost predicate Steps(run: Behaviour, labels: Schedule, n: nat)
  {
    match labels(n)
    case None => run(n + 1) == run(n)
    case Some(step) => Enabled(run(n), step) && run(n + 1) == Apply(run(n), step)
  }

  ghost predicate IsRun(run: Behaviour, labels: Schedule)
  {
    Init(run(0)) && forall n: nat :: Steps(run, labels, n)
  }

  // A participant with nothing to do but wait: for the release, or for the pause event.
  predicate Blocked(p: Participant, b: Checkpoint)
  {
    (p.pc.Spin? && !b.released) || (p.kind.Device? && p.pc.Run? && !p.wake) || p.pc.Exited?
  }

  predicate MovesOn(what: Option<Step>, i: nat)
  {
    what.Some? && what.value.Part? && what.value.i == i && !GuestWork(what.value.act)
  }

  predicate PartTurn(run: Behaviour, labels: Schedule, i: nat, n: nat)
  {
    i < |run(n).parts| ==> MovesOn(labels(n), i) || Blocked(run(n).parts[i], run(n).barrier)
  }

  // The orchestrator waits for participants, or has nothing to do.
  predicate OrchBlocked(s: State)
  {
    || s.orch.phase.Idle?
    || (s.orch.phase.Await? && s.barrier.parked < Total(s.parts, s.orch.op))
    || (s.orch.phase.AwaitResumed? && s.barrier.parked > 0)
  }

  predicate OrchTurn(run: Behaviour, labels: Schedule, n: nat)
  {
    (labels(n).Some? && labels(n).value.Orch?) || OrchBlocked(run(n))
  }

  ghost predicate PartTurnAfter(run: Behaviour, labels: Schedule, i: nat, n: nat)
  {
    exists k: nat :: n <= k && PartTurn(run, labels, i, k)
  }

  ghost predicate OrchTurnAfter(run: Behaviour, labels: Schedule, n: nat)
  {
    exists k: nat :: n <= k && OrchTurn(run, labels, k)
  }

  // Nobody stops: each thread keeps moving on, unless it is blocked. For a vCPU this says that it
  // leaves the guest again and again, for a device worker that serving its queues ends.
  ghost predicate Fair(run: Behaviour, labels: Schedule)
  {
    && (forall n: nat, i: nat :: PartTurnAfter(run, labels, i, n))
    && (forall n: nat :: OrchTurnAfter(run, labels, n))
  }

  lemma {:induction false} RunInv(run: Behaviour, labels: Schedule, n: nat)
    requires IsRun(run, labels)
    ensures Inv(run(n))
  {
    if n == 0 {
      InitHolds(run(0));
    } else {
      RunInv(run, labels, n - 1);
      assert Steps(run, labels, n - 1);
      if labels(n - 1).Some? { StepKeepsInv(run(n - 1), labels(n - 1).value); }
    }
  }

  lemma OneStep(run: Behaviour, labels: Schedule, n: nat)
    requires IsRun(run, labels) && !run(n).orch.phase.Idle?
    ensures Lowered(run(n), run(n + 1)) || (Unmoved(run(n), run(n + 1)) && !(labels(n).Some? && labels(n).value.Orch?))
  {
    RunInv(run, labels, n);
    assert Steps(run, labels, n);
    match labels(n) {
      case None =>
      case Some(Part(i, act)) => PartMoves(run(n), i, act);
      case Some(Orch(order)) => OrderLowers(run(n), order);
    }
  }

  // Whoever is waited for is not blocked.
  lemma AwaitedCanMove(s: State, i: nat, leaving: bool)
    requires BarrierInv(s) && Waiting(s.orch, leaving) && i < |s.parts| && Weight(s.parts[i], s.orch.op, leaving) > 0
    ensures !Blocked(s.parts[i], s.barrier)
  {
    assert PartOk(s.parts[i], i, s.orch);
  }

  // When an awaited participant has its turn, the operation has come nearer to its end.
  lemma {:induction false} PartLowers(run: Behaviour, labels: Schedule, n: nat, j: nat, i: nat, leaving: bool)
    returns (k: nat)
    requires IsRun(run, labels) && n <= j && Waiting(run(n).orch, leaving) && i < |run(n).parts|
    requires Weight(run(n).parts[i], run(n).orch.op, leaving) > 0 && PartTurn(run, labels, i, j)
    ensures n < k && Lowered(run(n), run(k))
    decreases j - n
  {
    RunInv(run, labels, n);
    if n == j {
      AwaitedCanMove(run(n), i, leaving);
      assert Steps(run, labels, n);
      WaitMoves(run(n), i, labels(n).value.act, leaving);
      k := n + 1;
    } else {
      OneStep(run, labels, n);
      if Lowered(run(n), run(n + 1)) { k := n + 1; } else { k := PartLowers(run, labels, n + 1, j, i, leaving); }
    }
  }

  predicate Waits(s: State, leaving: bool)
  {
    Waiting(s.orch, leaving) && Distance(s.parts, s.orch.op, leaving) > 0
  }

  lemma OrchCanMove(s: State)
    requires BarrierInv(s) && !s.orch.phase.Idle? && !Waits(s, true) && !Waits(s, false)
    ensures !OrchBlocked(s)
  {
    if Waiting(s.orch, true) { WaitIsOver(s, true); }
    if Waiting(s.orch, false) { WaitIsOver(s, false); }
  }

  lemma UnmovedWaits(s: State, t: State)
    requires Unmoved(s, t)
    ensures Waits(t, true) == Waits(s, true) && Waits(t, false) == Waits(s, false)
    ensures forall u :: Lowered(t, u) ==> Lowered(s, u)
  {
  }

  lemma {:induction false} OrchLowers(run: Behaviour, labels: Schedule, n: nat, j: nat) returns (k: nat)
    requires IsRun(run, labels) && n <= j && OrchTurn(run, labels, j)
    requires !run(n).orch.phase.Idle? && !Waits(run(n), true) && !Waits(run(n), false)
    ensures n < k && Lowered(run(n), run(k))
    decreases j - n
  {
    OneStep(run, labels, n);
    if n == j {
      RunInv(run, labels, n);
      OrchCanMove(run(n));
      k := n + 1;
    } else if Lowered(run(n), run(n + 1)) {
      k := n + 1;
    } else {
      UnmovedWaits(run(n), run(n + 1));
      k := OrchLowers(run, labels, n + 1, j);
    }
  }

  lemma Lowers(run: Behaviour, labels: Schedule, n: nat) returns (k: nat)
    requires IsRun(run, labels) && Fair(run, labels) && !run(n).orch.phase.Idle?
    ensures n < k && Lowered(run(n), run(k))
  {
    var leaving := run(n).orch.phase.AwaitResumed?;
    if Waits(run(n), leaving) {
      DistanceZero(run(n).parts, run(n).orch.op, leaving);
      var i :| 0 <= i < |run(n).parts| && Weight(run(n).parts[i], run(n).orch.op, leaving) > 0;
      assert PartTurnAfter(run, labels, i, n);
      var j: nat :| n <= j && PartTurn(run, labels, i, j);
      k := PartLowers(run, labels, n, j, i, leaving);
    } else {
      assert OrchTurnAfter(run, labels, n);
      var j: nat :| n <= j && OrchTurn(run, labels, j);
      k := OrchLowers(run, labels, n, j);
    }
  }

  // Whatever operation is under way at `n`, it ends: the orchestrator is idle again.
  lemma {:induction false} EveryOperationEnds(run: Behaviour, labels: Schedule, n: nat) returns (k: nat)
    requires IsRun(run, labels) && Fair(run, labels)
    ensures n <= k && run(k).orch.phase.Idle?
    decreases !run(n).orch.phase.Idle?, RankOf(run(n)).a, RankOf(run(n)).b, RankOf(run(n)).c
  {
    if run(n).orch.phase.Idle? {
      k := n;
    } else {
      var j := Lowers(run, labels, n);
      k := EveryOperationEnds(run, labels, j);
    }
  }
}
