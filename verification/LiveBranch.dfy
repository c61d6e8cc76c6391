// The checkpoint barrier and the operations built on it, as a transition system.
//
// Every atomic access of the barrier is one step, so a run is any interleaving of the vCPU
// threads, the device workers and the orchestrating thread. A write to guest RAM and the
// setting of its dirty bit are separate steps as well.
module LiveBranch {
  import opened Prelude
  import opened RamImage
  import opened DirtyPages

  // --- state ---------------------------------------------------------------

  // The three atomics.
  datatype Checkpoint = Checkpoint(requested: bool, released: bool, parked: nat)

  datatype Kind = Vcpu | Device

  // Where a participant thread stands.
  datatype Pc =
    | Check    // vCPU: top of the run loop, about to read `requested`
    | Run      // vCPU inside KVM_RUN, or device worker serving its queues
    | Drain    // device: pause event consumed, final drain
    | Capture  // about to store its state into the slot
    | Decide   // device: slot stored, about to read `requested`
    | Enter    // about to add itself to `parked`
    | Spin     // counted, polling `released`
    | Leave    // saw `released`, about to subtract itself
    | Exited   // device: took the freeze branch

  // A capture and, for the proofs, the checkpoint cycle it was taken in.
  datatype Captured = Captured(local: nat, cycle: nat)

  // `local` stands for the registers or queue cursors. `unmarked` holds the pages this thread
  // has written without having set the dirty bit yet.
  datatype Participant = Participant(
    kind: Kind, pc: Pc, local: nat, slot: Option<Captured>, wake: bool, unmarked: set<(nat, nat)>)

  datatype Op = CheckpointVcpus | CheckpointFull | SnapshotInPlace | Branch

  // The barrier an operation is at: branch has two, the second for finishing or for cleaning up.
  datatype Stage = First | Final | Abort

  datatype Phase =
    | Idle
    | ClearReleased | SetRequested      // Checkpoint::request
    | Wake(next: nat)                   // one pause eventfd at a time
    | Await                             // wait_until_parked
    | Held(did: nat)                    // everyone parked; `did` counts the body's steps
    | ClearRequested | SetReleased      // Checkpoint::release
    | AwaitResumed                      // wait_until_resumed
    | Copying                           // branch: the live copy between the barriers

  // Captured participant states and, where the operation writes one, `memory.bin`.
  datatype Image = Image(states: seq<nat>, memory: Option<seq<byte>>)

  datatype Orchestrator = Orchestrator(
    phase: Phase, op: Op, stage: Stage, failed: bool, cycle: nat, states: seq<nat>, image: Option<Image>)

  datatype Memory = Memory(
    ram: Ram, logging: bool, kvm: Bitmaps, dev: Bitmaps, file: seq<byte>, copied: set<(nat, nat)>)

  // For the proofs only: the pages written since the dirty sources were last drained, and the
  // machine as it was when the last barrier closed.
  datatype History = History(written: set<(nat, nat)>, frozenStates: seq<nat>, frozenRam: Ram)

  datatype State = State(
    barrier: Checkpoint, parts: seq<Participant>, orch: Orchestrator, mem: Memory, past: History)

  predicate Includes(op: Op) { !op.CheckpointVcpus? }

  predicate Active(p: Participant, op: Op) { p.kind.Vcpu? || Includes(op) }

  // The number of participants the orchestrator waits for.
  function Total(parts: seq<Participant>, op: Op): nat
  {
    if parts == [] then 0
    else Total(parts[..|parts| - 1], op) + (if Active(parts[|parts| - 1], op) then 1 else 0)
  }

  function Locals(parts: seq<Participant>, op: Op): seq<nat>
  {
    if parts == [] then []
    else
      var p := parts[|parts| - 1];
      var front := Locals(parts[..|parts| - 1], op);
      if Active(p, op) then front + [p.local] else front
  }

  // Read the slots in order; None when one is empty.
  function Collected(parts: seq<Participant>, op: Op): Option<seq<nat>>
  {
    if parts == [] then Some([])
    else
      var p := parts[|parts| - 1];
      var front := Collected(parts[..|parts| - 1], op);
      if front.None? || !Active(p, op) then front
      else if p.slot.None? then None
      else Some(front.value + [p.slot.value.local])
  }

  // Collecting takes each capture out of its slot.
  function Taken(parts: seq<Participant>, op: Op): (taken: seq<Participant>)
    ensures |taken| == |parts|
  {
    seq(|parts|, i requires 0 <= i < |parts| =>
      if Active(parts[i], op) then parts[i].(slot := None) else parts[i])
  }

  // --- participant steps -----------------------------------------------------

  datatype Act =
    | Work(local: nat)
    | Write(r: nat, off: nat, value: byte)
    | Mark(r: nat, page: nat)
    | ExitGuest
    | Poll
    | Wakened
    | Drained
    | Store
    | ParkOrExit
    | CountIn
    | SeeRelease
    | CountOut

  predicate Serving(p: Participant) { p.pc.Run? || p.pc.Drain? }

  predicate CanAct(p: Participant, act: Act, b: Checkpoint, ram: Ram)
  {
    match act
    case Work(_) => Serving(p)
    case Write(r, off, _) => Serving(p) && r < |ram| && off < |ram[r]|
    case Mark(r, page) => (r, page) in p.unmarked
    case ExitGuest => p.kind.Vcpu? && p.pc.Run? && p.unmarked == {}
    case Poll => p.kind.Vcpu? && p.pc.Check?
    case Wakened => p.kind.Device? && p.pc.Run? && p.wake && p.unmarked == {}
    case Drained => p.kind.Device? && p.pc.Drain? && p.unmarked == {}
    case Store => p.pc.Capture?
    case ParkOrExit => p.kind.Device? && p.pc.Decide?
    case CountIn => p.pc.Enter?
    case SeeRelease => p.pc.Spin? && b.released
    case CountOut => p.pc.Leave? && b.parked > 0
  }

  function Acted(p: Participant, act: Act, b: Checkpoint, cycle: nat): Participant
  {
    match act
    case Work(local) => p.(local := local)
    case Write(r, off, _) => p.(unmarked := p.unmarked + {(r, off / PAGE)})
    case Mark(r, page) => p.(unmarked := p.unmarked - {(r, page)})
    case ExitGuest => p.(pc := Check)
    case Poll => p.(pc := if b.requested then Capture else Run)
    case Wakened => p.(wake := false, pc := Drain)
    case Drained => p.(pc := Capture)
    case Store => p.(slot := Some(Captured(p.local, cycle)), pc := if p.kind.Vcpu? then Enter else Decide)
    case ParkOrExit => p.(pc := if b.requested then Enter else Exited)
    case CountIn => p.(pc := Spin)
    case SeeRelease => p.(pc := Leave)
    case CountOut => p.(pc := if p.kind.Vcpu? then Check else Run)
  }

  function BarrierAfter(b: Checkpoint, act: Act): Checkpoint
  {
    if act.CountIn? then b.(parked := b.parked + 1)
    else if act.CountOut? && b.parked > 0 then b.(parked := b.parked - 1)
    else b
  }

  // vCPU writes reach KVM's log while logging is on; device writes reach the region bitmap.
  function MemoryAfter(m: Memory, kind: Kind, act: Act): Memory
  {
    match act
    case Write(r, off, value) =>
      if r < |m.ram| && off < |m.ram[r]| then m.(ram := m.ram[r := m.ram[r][off := value]]) else m
    case Mark(r, page) =>
      if kind.Device? && r < |m.dev| then m.(dev := m.dev[r := SetBit(m.dev[r], page)])
      else if kind.Vcpu? && m.logging && r < |m.kvm| then m.(kvm := m.kvm[r := SetBit(m.kvm[r], page)])
      else m
    case _ => m
  }

  function WrittenAfter(written: set<(nat, nat)>, act: Act): set<(nat, nat)>
  {
    if act.Write? then written + {(act.r, act.off / PAGE)} else written
  }

  function Participate(s: State, i: nat, act: Act): State
    requires i < |s.parts|
  {
    State(BarrierAfter(s.barrier, act),
          s.parts[i := Acted(s.parts[i], act, s.barrier, s.orch.cycle)],
          s.orch,
          MemoryAfter(s.mem, s.parts[i].kind, act),
          s.past.(written := WrittenAfter(s.past.written, act)))
  }

  // --- orchestrator steps ----------------------------------------------------

  // `stops` is whether switching dirty logging off succeeds, where that is attempted; its error is
  // ignored.
  datatype Order =
    | Start(op: Op)
    | StoreReleased
    | StoreRequested
    | WakeNext
    | AllParked
    | TakeStates
    | EnableLogging
    | DrainLogs
    | DumpRam
    | RecopyPages
    | FinishBody(stops: bool)
    | FailBody(stops: bool)
    | WithdrawRequest
    | Release
    | AllResumed
    | CopyByte(r: nat, off: nat)
    | CopyDone
    | CopyFailed

  predicate AllCopied(m: Memory)
  {
    forall r, off :: 0 <= r < |m.ram| && 0 <= off < |m.ram[r]| ==> (r, off) in m.copied
  }

  predicate At(o: Orchestrator, op: Op, stage: Stage, phase: Phase)
  {
    o.op == op && o.stage == stage && o.phase == phase
  }

  predicate BodyDone(o: Orchestrator)
  {
    match o.op
    case CheckpointVcpus => o.phase == Held(1)
    case CheckpointFull => o.phase == Held(1)
    case SnapshotInPlace => o.phase == Held(2)
    case Branch => if o.stage.Abort? then o.phase.Held? else o.phase == Held(2)
  }

  predicate CanOrder(s: State, order: Order)
  {
    var o, m := s.orch, s.mem;
    match order
    case Start(_) => o.phase.Idle?
    case StoreReleased => o.phase.ClearReleased?
    case StoreRequested => o.phase.SetRequested?
    case WakeNext => o.phase.Wake? && o.phase.next <= |s.parts|
    case AllParked => o.phase.Await? && s.barrier.parked >= Total(s.parts, o.op)
    case TakeStates => o.phase == Held(0) && (o.op.Branch? ==> o.stage.Final?)
    case EnableLogging => At(o, Branch, First, Held(0))
    case DrainLogs => At(o, Branch, First, Held(1))
    case DumpRam => o.op.SnapshotInPlace? && o.phase == Held(1)
    case RecopyPages => At(o, Branch, Final, Held(1)) && |m.file| == |Flat(m.ram)| == Base(Lens(m.ram), |m.ram|)
    case FinishBody(_) => BodyDone(o)
    case FailBody(_) => o.phase == Held(0) || o.phase == Held(1)
    case WithdrawRequest => o.phase.ClearRequested?
    case Release => o.phase.SetReleased?
    case AllResumed => o.phase.AwaitResumed? && s.barrier.parked == 0
    case CopyByte(r, off) =>
      && o.phase.Copying? && r < |m.ram| && off < |m.ram[r]| && Base(Lens(m.ram), r) + off < |m.file|
      && (r, off) !in m.copied
    case CopyDone => o.phase.Copying? && AllCopied(m)
    case CopyFailed => o.phase.Copying?
  }

  // Whether dirty logging is on after a body: only a branch switches it off.
  predicate StillLogging(s: State, stops: bool)
  {
    s.mem.logging && !(s.orch.op.Branch? && stops)
  }

  // Every failing body of a branch tries to stop dirty logging, and every one releases the barrier.
  function Fail(s: State, stops: bool): State
  {
    s.(orch := s.orch.(failed := true, phase := ClearRequested), mem := s.mem.(logging := StillLogging(s, stops)))
  }

  function To(s: State, phase: Phase): State
  {
    s.(orch := s.orch.(phase := phase))
  }

  // What the operation hands back: the captured states, with `memory.bin` where it writes one.
  function Result(s: State): Image
  {
    Image(s.orch.states, if s.orch.op.Branch? || s.orch.op.SnapshotInPlace? then Some(s.mem.file) else None)
  }

  function Zeros(n: nat): seq<byte> { seq(n, _ => 0 as byte) }

  function Ordered(s: State, order: Order): State
    requires CanOrder(s, order)
  {
    var o, m := s.orch, s.mem;
    match order
    case Start(op) =>
      if forall p :: p in s.parts ==> p.kind.Device? then
        s.(orch := o.(op := op, stage := First, failed := true, image := None))
      else s.(orch := Orchestrator(ClearReleased, op, First, false, o.cycle, [], None))
    case StoreReleased => To(s.(barrier := s.barrier.(released := false)), SetRequested)
    case StoreRequested =>
      s.(barrier := s.barrier.(requested := true), orch := o.(cycle := o.cycle + 1, phase := Wake(0)))
    case WakeNext =>
      var n := o.phase.next;
      if n == |s.parts| then To(s, Await)
      else if s.parts[n].kind.Device? && Includes(o.op) then
        To(s.(parts := s.parts[n := s.parts[n].(wake := true)]), Wake(n + 1))
      else To(s, Wake(n + 1))
    case AllParked =>
      To(s.(past := s.past.(frozenStates := Locals(s.parts, o.op), frozenRam := m.ram)), Held(0))
    case TakeStates =>
      var states := Collected(s.parts, o.op);
      if states.None? then Fail(s, true)
      else s.(parts := Taken(s.parts, o.op), orch := o.(states := states.value, phase := Held(1)))
    case EnableLogging =>
      To(s.(mem := m.(logging := true, kvm := if m.logging then m.kvm else Cleared(m.kvm))), Held(1))
    case DrainLogs => To(ResetLogs(s), Held(2))
    case DumpRam => To(s.(mem := m.(file := Flat(m.ram))), Held(2))
    case RecopyPages => To(ResetLogs(s.(mem := m.(file := Recopied(m.file, m.ram, m.kvm, m.dev)))), Held(2))
    case FinishBody(stops) =>
      if o.op.Branch? && o.stage.First? then To(s, ClearRequested)
      else if o.op.Branch? && o.stage.Abort? then Fail(s, stops)
      else s.(orch := o.(phase := ClearRequested, image := Some(Result(s))),
              mem := m.(logging := StillLogging(s, stops)))
    case FailBody(stops) => Fail(s, stops)
    case WithdrawRequest => To(s.(barrier := s.barrier.(requested := false)), SetReleased)
    case Release => To(s.(barrier := s.barrier.(released := true)), AwaitResumed)
    case AllResumed =>
      if o.op.Branch? && o.stage.First? && !o.failed then
        To(s.(mem := m.(copied := {}, file := Zeros(Base(Lens(m.ram), |m.ram|)))), Copying)
      else To(s, Idle)
    case CopyByte(r, off) =>
      s.(mem := m.(file := m.file[Base(Lens(m.ram), r) + off := m.ram[r][off]], copied := m.copied + {(r, off)}))
    case CopyDone => s.(orch := o.(phase := ClearReleased, stage := Final))
    case CopyFailed => s.(orch := o.(phase := ClearReleased, stage := Abort))
  }

  // Reading the dirty sources also resets them.
  function ResetLogs(s: State): State
  {
    s.(mem := s.mem.(kvm := Cleared(s.mem.kvm), dev := Cleared(s.mem.dev)), past := s.past.(written := {}))
  }

  // --- runs --------------------------------------------------------------------

  datatype Step = Part(i: nat, act: Act) | Orch(order: Order)

  predicate Enabled(s: State, step: Step)
  {
    match step
    case Part(i, act) => i < |s.parts| && CanAct(s.parts[i], act, s.barrier, s.mem.ram)
    case Orch(order) => CanOrder(s, order)
  }

  function Apply(s: State, step: Step): State
    requires Enabled(s, step)
  {
    match step
    case Part(i, act) => Participate(s, i, act)
    case Orch(order) => Ordered(s, order)
  }

  // The state after a list of steps, or None when one of them was not enabled.
  function Execute(s: State, steps: seq<Step>): Option<State>
  {
    if steps == [] then Some(s)
    else
      var last := steps[|steps| - 1];
      var mid := Execute(s, steps[..|steps| - 1]);
      if mid.Some? && Enabled(mid.value, last) then Some(Apply(mid.value, last)) else None
  }

  // A participant outside any barrier.
  predicate Free(p: Participant)
  {
    (p.pc.Run? || (p.pc.Check? && p.kind.Vcpu?)) && !p.wake
  }

  // Regions are whole pages and both sources have a bit for every page.
  predicate Shaped(m: Memory)
  {
    && WholePages(Lens(m.ram))
    && |m.kvm| == |m.dev| == |m.ram|
    && (forall r :: 0 <= r < |m.ram| ==> |m.ram[r]| <= |m.kvm[r]| * 64 * PAGE && |m.ram[r]| <= |m.dev[r]| * 64 * PAGE)
  }

  // A booted machine before its first checkpoint.
  predicate Init(s: State)
  {
    && !s.barrier.requested && s.barrier.parked == 0
    && (forall i :: 0 <= i < |s.parts| ==> Free(s.parts[i]) && s.parts[i].unmarked == {})
    && s.orch.phase.Idle? && s.orch.stage.First? && s.orch.failed && s.orch.image.None?
    && !s.mem.logging && Shaped(s.mem)
  }
}
