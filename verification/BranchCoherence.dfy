// Why a live branch is coherent: between the two barriers every written page is marked or about
// to be, so copying the marked pages again at the final barrier yields RAM as it stands there.
module BranchCoherence {
  import opened Prelude
  import opened RamImage
  import opened DirtyPages
  import opened LiveBranch
  import opened BranchProofs

  // Some thread has written the page and not marked it yet.
  ghost predicate Pending(parts: seq<Participant>, r: nat, page: nat)
  {
    exists i :: 0 <= i < |parts| && (r, page) in parts[i].unmarked
  }

  ghost predicate Seen(s: State, r: nat, page: nat)
  {
    Marked(s.mem.kvm, r, page) || Marked(s.mem.dev, r, page) || Pending(s.parts, r, page)
  }

  predicate InRam(ram: Ram, r: nat, page: nat)
  {
    r < |ram| && page * PAGE < |ram[r]|
  }

  // The dirty sources were drained at the first barrier and not since.
  predicate Tracking(o: Orchestrator)
  {
    o.op.Branch? && match o.stage
      case First => o.phase == Held(2) || o.phase.Copying? || (!o.failed && Letting(o.phase))
      case Final => LoggingExpected(o) && o.phase != Held(2)
      case Abort => false
  }

  // Between the barriers a page is marked or about to be marked iff it was written.
  ghost predicate TracksWrites(s: State)
  {
    Tracking(s.orch) ==> forall r: nat, page: nat :: InRam(s.mem.ram, r, page) ==>
      (Seen(s, r, page) <==> (r, page) in s.past.written)
  }

  // The file byte for `off` of region `r` equals RAM unless its page was written.
  ghost predicate ByteOk(m: Memory, written: set<(nat, nat)>, r: nat, off: nat)
  {
    r < |m.ram| && off < |m.ram[r]| && Base(Lens(m.ram), r) + off < |m.file| ==>
      m.file[Base(Lens(m.ram), r) + off] == m.ram[r][off] || (r, off / PAGE) in written
  }

  // Every byte copied so far equals RAM unless its page was written since the first barrier.
  ghost predicate CopiedOk(m: Memory, written: set<(nat, nat)>)
  {
    && |m.file| == Base(Lens(m.ram), |m.ram|)
    && forall r: nat, off: nat :: (r, off) in m.copied ==> ByteOk(m, written, r, off)
  }

  ghost predicate CopyInv(s: State)
  {
    && (s.orch.phase.Copying? ==> CopiedOk(s.mem, s.past.written))
    && (s.orch.stage.Final? && Tracking(s.orch) ==> CopiedOk(s.mem, s.past.written) && AllCopied(s.mem))
  }

  ghost predicate MemoryInv(s: State)
  {
    Shaped(s.mem) && TracksWrites(s) && CopyInv(s)
  }

  lemma SameLens(a: Ram, b: Ram)
    requires |a| == |b| && forall r :: 0 <= r < |a| ==> |a[r]| == |b[r]|
    ensures Lens(a) == Lens(b)
  {
  }

  lemma ActKeepsShape(m: Memory, kind: Kind, act: Act)
    requires Shaped(m)
    ensures Shaped(MemoryAfter(m, kind, act))
    ensures Lens(MemoryAfter(m, kind, act).ram) == Lens(m.ram)
  {
    SameLens(m.ram, MemoryAfter(m, kind, act).ram);
  }

  lemma PendingAfter(s: State, i: nat, act: Act, r: nat, page: nat)
    requires Enabled(s, Part(i, act))
    ensures act.Write? ==> (Pending(Participate(s, i, act).parts, r, page) <==>
              Pending(s.parts, r, page) || (r, page) == (act.r, act.off / PAGE))
    ensures !act.Write? && !(act.Mark? && (r, page) == (act.r, act.page)) ==>
              (Pending(Participate(s, i, act).parts, r, page) <==> Pending(s.parts, r, page))
    ensures act.Mark? && (r, page) == (act.r, act.page) ==> Pending(s.parts, r, page)
  {
    var t := Participate(s, i, act);
    assert t.parts[i].unmarked == Acted(s.parts[i], act, s.barrier, s.orch.cycle).unmarked;
    assert forall j :: 0 <= j < |s.parts| && j != i ==> t.parts[j] == s.parts[j];
    if Pending(s.parts, r, page) {
      var j :| 0 <= j < |s.parts| && (r, page) in s.parts[j].unmarked;
      assert !(act.Mark? && (r, page) == (act.r, act.page)) ==> (r, page) in t.parts[j].unmarked;
    }
  }

  lemma BitmapReaches(m: Memory, r: nat, page: nat)
    requires Shaped(m) && InRam(m.ram, r, page)
    ensures page / 64 < |m.kvm[r]| && page / 64 < |m.dev[r]|
  {
  }

  lemma MarkedAfter(maps: Bitmaps, r: nat, page: nat, q: nat, other: nat)
    requires r < |maps| && page / 64 < |maps[r]|
    ensures Marked(maps[r := SetBit(maps[r], page)], q, other) <==> Marked(maps, q, other) || (q, other) == (r, page)
  {
    SetBitSetsOne(maps[r], page, other);
  }

  lemma SeenAfter(s: State, i: nat, act: Act, r: nat, page: nat)
    requires Shaped(s.mem) && Enabled(s, Part(i, act)) && s.mem.logging && InRam(s.mem.ram, r, page)
    ensures Seen(Participate(s, i, act), r, page) <==>
              Seen(s, r, page) || (act.Write? && (r, page) == (act.r, act.off / PAGE))
  {
    PendingAfter(s, i, act, r, page);
    if act.Mark? {
      if (r, page) == (act.r, act.page) {
        BitmapReaches(s.mem, r, page);
        if s.parts[i].kind.Device? {
          MarkedAfter(s.mem.dev, r, page, r, page);
        } else {
          MarkedAfter(s.mem.kvm, r, page, r, page);
        }
      } else {
        OtherPage(s.mem, s.parts[i].kind, act, r, page);
      }
    }
  }

  lemma OtherPage(m: Memory, kind: Kind, act: Act, r: nat, page: nat)
    requires act.Mark? && (r, page) != (act.r, act.page)
    ensures Marked(MemoryAfter(m, kind, act).kvm, r, page) <==> Marked(m.kvm, r, page)
    ensures Marked(MemoryAfter(m, kind, act).dev, r, page) <==> Marked(m.dev, r, page)
  {
    if act.r < |m.dev| && act.page / 64 < |m.dev[act.r]| { MarkedAfter(m.dev, act.r, act.page, r, page); }
    if act.r < |m.kvm| && act.page / 64 < |m.kvm[act.r]| { MarkedAfter(m.kvm, act.r, act.page, r, page); }
  }

  lemma ParticipantKeepsTracking(s: State, i: nat, act: Act)
    requires ControlInv(s) && MemoryInv(s) && Enabled(s, Part(i, act))
    ensures TracksWrites(Participate(s, i, act))
  {
    var t := Participate(s, i, act);
    ActKeepsShape(s.mem, s.parts[i].kind, act);
    if Tracking(s.orch) {
      forall r: nat, page: nat | InRam(t.mem.ram, r, page)
        ensures Seen(t, r, page) <==> (r, page) in t.past.written
      {
        assert InRam(s.mem.ram, r, page);
        SeenAfter(s, i, act, r, page);
      }
    }
  }

  // A write may spoil an already copied byte, but then its page counts as written.
  lemma ActKeepsByte(m: Memory, kind: Kind, act: Act, written: set<(nat, nat)>, r: nat, off: nat)
    requires Shaped(m) && ByteOk(m, written, r, off)
    ensures ByteOk(MemoryAfter(m, kind, act), WrittenAfter(written, act), r, off)
  {
    ActKeepsShape(m, kind, act);
  }

  lemma ActKeepsCopies(m: Memory, kind: Kind, act: Act, written: set<(nat, nat)>)
    requires Shaped(m) && CopiedOk(m, written)
    ensures CopiedOk(MemoryAfter(m, kind, act), WrittenAfter(written, act))
    ensures AllCopied(m) ==> AllCopied(MemoryAfter(m, kind, act))
  {
    ActKeepsShape(m, kind, act);
    forall r: nat, off: nat | (r, off) in m.copied
      ensures ByteOk(MemoryAfter(m, kind, act), WrittenAfter(written, act), r, off)
    {
      ActKeepsByte(m, kind, act, written, r, off);
    }
  }

  lemma ParticipantKeepsMemory(s: State, i: nat, act: Act)
    requires ControlInv(s) && MemoryInv(s) && Enabled(s, Part(i, act))
    ensures MemoryInv(Participate(s, i, act))
  {
    ActKeepsShape(s.mem, s.parts[i].kind, act);
    ParticipantKeepsTracking(s, i, act);
    if s.orch.phase.Copying? || (s.orch.stage.Final? && Tracking(s.orch)) {
      ActKeepsCopies(s.mem, s.parts[i].kind, act, s.past.written);
    }
  }

  // While everyone is parked no write is waiting for its dirty bit.
  lemma NothingPending(s: State, r: nat, page: nat)
    requires BarrierInv(s) && s.orch.phase.Held? && Includes(s.orch.op)
    ensures !Pending(s.parts, r, page)
  {
  }

  lemma DirtyIffWritten(s: State, r: nat, page: nat)
    requires BarrierInv(s) && MemoryInv(s) && At(s.orch, Branch, Final, Held(1)) && InRam(s.mem.ram, r, page)
    ensures Marked(s.mem.kvm, r, page) || Marked(s.mem.dev, r, page) <==> (r, page) in s.past.written
  {
    NothingPending(s, r, page);
    assert Seen(s, r, page) <==> (r, page) in s.past.written;
  }

  lemma RecopiedByte(m: Memory, written: set<(nat, nat)>, k: nat)
    requires |m.file| == |Flat(m.ram)| == Base(Lens(m.ram), |m.ram|) && k < |m.file|
    requires var at := Locate(Lens(m.ram), k);
             && ByteOk(m, written, at.0, at.1)
             && (Marked(m.kvm, at.0, at.1 / PAGE) || Marked(m.dev, at.0, at.1 / PAGE) <==>
                 (at.0, at.1 / PAGE) in written)
    ensures Recopied(m.file, m.ram, m.kvm, m.dev)[k] == Flat(m.ram)[k]
  {
    var at := Locate(Lens(m.ram), k);
    FlatAt(m.ram, at.0, at.1);
  }

  // The re-copy at the final barrier makes the file equal to RAM.
  lemma RecopyIsCoherent(s: State)
    requires BarrierInv(s) && MemoryInv(s) && At(s.orch, Branch, Final, Held(1))
    ensures |s.mem.file| == |Flat(s.mem.ram)| == Base(Lens(s.mem.ram), |s.mem.ram|)
    ensures Recopied(s.mem.file, s.mem.ram, s.mem.kvm, s.mem.dev) == Flat(s.mem.ram)
  {
    FlatLength(s.mem.ram);
    forall k | 0 <= k < |s.mem.file|
      ensures Recopied(s.mem.file, s.mem.ram, s.mem.kvm, s.mem.dev)[k] == Flat(s.mem.ram)[k]
    {
      var at := Locate(Lens(s.mem.ram), k);
      DirtyIffWritten(s, at.0, at.1 / PAGE);
      assert ByteOk(s.mem, s.past.written, at.0, at.1);
      RecopiedByte(s.mem, s.past.written, k);
    }
  }

  // What is copied again is exactly what was written since the first barrier.
  lemma RecopiedPagesAreTheWrittenOnes(s: State, r: nat, page: nat)
    requires BarrierInv(s) && MemoryInv(s) && At(s.orch, Branch, Final, Held(1)) && InRam(s.mem.ram, r, page)
    ensures IsDirty(Lens(s.mem.ram), s.mem.kvm, s.mem.dev, r, page) <==> (r, page) in s.past.written
  {
    DirtyIffWritten(s, r, page);
  }

  lemma OrderKeepsShape(s: State, order: Order)
    requires Shaped(s.mem) && Enabled(s, Orch(order))
    ensures Shaped(Ordered(s, order).mem) && Ordered(s, order).mem.ram == s.mem.ram
  {
  }

  lemma DrainStartsTracking(s: State)
    requires BarrierInv(s) && At(s.orch, Branch, First, Held(1))
    ensures TracksWrites(Ordered(s, DrainLogs))
  {
    var t := Ordered(s, DrainLogs);
    forall r: nat, page: nat | InRam(t.mem.ram, r, page)
      ensures Seen(t, r, page) <==> (r, page) in t.past.written
    {
      NothingPending(s, r, page);
    }
  }

  // Apart from the draining orders nothing the orchestrator does changes what was written or seen.
  lemma OrderKeepsSeen(s: State, order: Order, r: nat, page: nat)
    requires Enabled(s, Orch(order)) && !order.DrainLogs? && !order.RecopyPages? && !order.EnableLogging?
    ensures Ordered(s, order).past.written == s.past.written
    ensures Seen(Ordered(s, order), r, page) <==> Seen(s, r, page)
  {
    var t := Ordered(s, order);
    assert |t.parts| == |s.parts| && forall i :: 0 <= i < |s.parts| ==> t.parts[i].unmarked == s.parts[i].unmarked;
  }

  // Tracking starts with the draining order alone, and a re-copy or an arming ends it or finds it off.
  lemma TrackingGoesOn(s: State, order: Order)
    requires ControlInv(s) && Enabled(s, Orch(order)) && !order.DrainLogs? && Tracking(Ordered(s, order).orch)
    ensures Tracking(s.orch) && !order.RecopyPages? && !order.EnableLogging?
  {
  }

  lemma OrderKeepsTracking(s: State, order: Order)
    requires BarrierInv(s) && ControlInv(s) && MemoryInv(s) && Enabled(s, Orch(order))
    ensures TracksWrites(Ordered(s, order))
  {
    var t := Ordered(s, order);
    OrderKeepsShape(s, order);
    if order.DrainLogs? {
      DrainStartsTracking(s);
    } else if Tracking(t.orch) {
      TrackingGoesOn(s, order);
      forall r: nat, page: nat | InRam(t.mem.ram, r, page)
        ensures Seen(t, r, page) <==> (r, page) in t.past.written
      {
        OrderKeepsSeen(s, order, r, page);
      }
    }
  }

  lemma CopyStepByte(m: Memory, written: set<(nat, nat)>, r: nat, off: nat, q: nat, o: nat)
    requires r < |m.ram| && off < |m.ram[r]| && Base(Lens(m.ram), r) + off < |m.file|
    requires (q, o) != (r, off) ==> ByteOk(m, written, q, o)
    ensures ByteOk(m.(file := m.file[Base(Lens(m.ram), r) + off := m.ram[r][off]], copied := m.copied + {(r, off)}),
                   written, q, o)
  {
    if (q, o) != (r, off) && q < |m.ram| && o < |m.ram[q]| && Base(Lens(m.ram), q) + o == Base(Lens(m.ram), r) + off {
      SplitIsUnique(Lens(m.ram), q, o, r, off);
    }
  }

  lemma CopyStepKeepsCopies(m: Memory, written: set<(nat, nat)>, r: nat, off: nat)
    requires CopiedOk(m, written) && r < |m.ram| && off < |m.ram[r]| && Base(Lens(m.ram), r) + off < |m.file|
    ensures CopiedOk(m.(file := m.file[Base(Lens(m.ram), r) + off := m.ram[r][off]], copied := m.copied + {(r, off)}),
                     written)
  {
    var k := Base(Lens(m.ram), r) + off;
    var n := m.(file := m.file[k := m.ram[r][off]], copied := m.copied + {(r, off)});
    forall q: nat, o: nat | (q, o) in n.copied
      ensures ByteOk(n, written, q, o)
    {
      if (q, o) != (r, off) { assert ByteOk(m, written, q, o); }
      CopyStepByte(m, written, r, off, q, o);
    }
  }

  // The live copy starts from nothing copied into a file of the right length.
  lemma CopyStarts(s: State)
    requires ControlInv(s) && CopyInv(s) && Enabled(s, Orch(AllResumed))
    ensures CopyInv(Ordered(s, AllResumed))
  {
    var t := Ordered(s, AllResumed);
    if t.orch.phase.Copying? { assert t.mem.copied == {} && t.mem.ram == s.mem.ram; }
  }

  lemma CopyPhaseKeepsCopies(s: State, order: Order)
    requires ControlInv(s) && CopyInv(s) && Enabled(s, Orch(order)) && !RequestOrder(order) && !BodyOrder(order)
    ensures CopyInv(Ordered(s, order))
  {
    if order.CopyByte? {
      CopyStepKeepsCopies(s.mem, s.past.written, order.r, order.off);
    } else if order.AllResumed? {
      CopyStarts(s);
    }
  }

  lemma SameCopies(m: Memory, n: Memory, written: set<(nat, nat)>)
    requires CopiedOk(m, written) && n.ram == m.ram && n.file == m.file && n.copied == m.copied
    ensures CopiedOk(n, written)
  {
    forall r: nat, off: nat | (r, off) in n.copied ensures ByteOk(n, written, r, off) {
      assert ByteOk(m, written, r, off);
    }
  }

  // Tracking at the final barrier goes on only through steps that leave the copy alone.
  lemma FinalKeepsFile(s: State, order: Order)
    requires ControlInv(s) && Enabled(s, Orch(order)) && (RequestOrder(order) || BodyOrder(order))
    ensures !Ordered(s, order).orch.phase.Copying?
    ensures var t := Ordered(s, order);
            t.orch.stage.Final? && Tracking(t.orch) ==>
              && s.orch.stage.Final? && Tracking(s.orch) && t.past.written == s.past.written
              && t.mem.ram == s.mem.ram && t.mem.file == s.mem.file && t.mem.copied == s.mem.copied
  {
  }

  lemma OtherOrderKeepsCopies(s: State, order: Order)
    requires ControlInv(s) && CopyInv(s) && Enabled(s, Orch(order)) && (RequestOrder(order) || BodyOrder(order))
    ensures CopyInv(Ordered(s, order))
  {
    var t := Ordered(s, order);
    FinalKeepsFile(s, order);
    if t.orch.stage.Final? && Tracking(t.orch) { SameCopies(s.mem, t.mem, s.past.written); }
  }

  // --- what an operation returns -----------------------------------------------

  predicate Closed(phase: Phase)
  {
    phase.Held? || phase.ClearRequested? || phase.SetReleased?
  }

  predicate WritesMemory(op: Op) { op.Branch? || op.SnapshotInPlace? }

  // A branch collects nothing at its first barrier.
  predicate Collects(o: Orchestrator) { o.op.Branch? ==> o.stage.Final? }

  ghost predicate ResultInv(s: State)
  {
    var o, past := s.orch, s.past;
    && (Closed(o.phase) ==>
        past.frozenStates == Locals(s.parts, o.op) && (Includes(o.op) ==> past.frozenRam == s.mem.ram))
    && ((o.phase == Held(1) || o.phase == Held(2)) && Collects(o) ==> o.states == past.frozenStates)
    && (o.phase == Held(2) && WritesMemory(o.op) && Collects(o) ==> s.mem.file == Flat(past.frozenRam))
    && (o.image.Some? ==>
          o.image.value == Image(past.frozenStates, if WritesMemory(o.op) then Some(Flat(past.frozenRam)) else None))
  }

  // Nobody who takes part in the barrier can move while it is closed.
  lemma NobodyMoves(s: State, i: nat, act: Act)
    requires BarrierInv(s) && Closed(s.orch.phase) && i < |s.parts| && Active(s.parts[i], s.orch.op)
    ensures !CanAct(s.parts[i], act, s.barrier, s.mem.ram)
  {
  }

  lemma {:induction false} LocalsUpdate(parts: seq<Participant>, i: nat, p: Participant, op: Op)
    requires i < |parts| && !Active(parts[i], op) && !Active(p, op)
    ensures Locals(parts[i := p], op) == Locals(parts, op)
  {
    var n := |parts| - 1;
    if i < n {
      LocalsUpdate(parts[..n], i, p, op);
      assert parts[i := p][..n] == parts[..n][i := p];
    } else {
      assert parts[i := p][..n] == parts[..n];
    }
  }

  lemma {:induction false} LocalsTaken(parts: seq<Participant>, op: Op)
    ensures Locals(Taken(parts, op), op) == Locals(parts, op)
  {
    if parts != [] {
      LocalsTaken(parts[..|parts| - 1], op);
      assert Taken(parts, op)[..|parts| - 1] == Taken(parts[..|parts| - 1], op);
    }
  }

  lemma ParticipantKeepsResult(s: State, i: nat, act: Act)
    requires BarrierInv(s) && ResultInv(s) && Enabled(s, Part(i, act))
    ensures ResultInv(Participate(s, i, act))
  {
    if Closed(s.orch.phase) {
      if Active(s.parts[i], s.orch.op) {
        NobodyMoves(s, i, act);
        assert false;
      }
      LocalsUpdate(s.parts, i, Acted(s.parts[i], act, s.barrier, s.orch.cycle), s.orch.op);
    }
  }

  lemma BodyKeepsResult(s: State, order: Order)
    requires BarrierInv(s) && ControlInv(s) && MemoryInv(s) && ResultInv(s) && Enabled(s, Orch(order)) &&
             BodyOrder(order)
    ensures ResultInv(Ordered(s, order))
  {
    if order.TakeStates? {
      FreshSlotsCollect(s.parts, s.orch.op, s.orch.cycle);
      LocalsTaken(s.parts, s.orch.op);
    } else if order.RecopyPages? {
      RecopyIsCoherent(s);
    }
  }

  lemma RequestKeepsResult(s: State, order: Order)
    requires ControlInv(s) && ResultInv(s) && Enabled(s, Orch(order)) && RequestOrder(order)
    ensures ResultInv(Ordered(s, order))
  {
  }

  lemma ReleaseKeepsResult(s: State, order: Order)
    requires ControlInv(s) && ResultInv(s) && Enabled(s, Orch(order)) && !RequestOrder(order) && !BodyOrder(order)
    ensures ResultInv(Ordered(s, order))
  {
  }

  lemma OtherOrderKeepsResult(s: State, order: Order)
    requires ControlInv(s) && ResultInv(s) && Enabled(s, Orch(order)) && !BodyOrder(order)
    ensures ResultInv(Ordered(s, order))
  {
    if RequestOrder(order) { RequestKeepsResult(s, order); } else { ReleaseKeepsResult(s, order); }
  }

  // --- every run -----------------------------------------------------------------

  ghost predicate Inv(s: State)
  {
    BarrierInv(s) && ControlInv(s) && MemoryInv(s) && ResultInv(s)
  }

  lemma StepKeepsInv(s: State, step: Step)
    requires Inv(s) && Enabled(s, step)
    ensures Inv(Apply(s, step))
  {
    match step
    case Part(i, act) =>
      ParticipantKeepsBarrier(s, i, act);
      ParticipantKeepsControl(s, i, act);
      ParticipantKeepsMemory(s, i, act);
      ParticipantKeepsResult(s, i, act);
    case Orch(order) =>
      OrderKeepsInv(s, order);
  }

  lemma OrderKeepsInv(s: State, order: Order)
    requires Inv(s) && Enabled(s, Orch(order))
    ensures Inv(Ordered(s, order))
  {
    OrderKeepsBarrier(s, order);
    OrderKeepsControl(s, order);
    OrderKeepsShape(s, order);
    OrderKeepsTracking(s, order);
    if RequestOrder(order) || BodyOrder(order) {
      OtherOrderKeepsCopies(s, order);
    } else {
      CopyPhaseKeepsCopies(s, order);
    }
    if BodyOrder(order) {
      BodyKeepsResult(s, order);
    } else {
      OtherOrderKeepsResult(s, order);
    }
  }

  lemma InitHolds(s: State)
    requires Init(s)
    ensures Inv(s)
  {
    CountZero(s.parts);
  }

  lemma {:induction false} EveryRunKeepsInv(s: State, steps: seq<Step>, t: State)
    requires Init(s) && Execute(s, steps) == Some(t)
    ensures Inv(t)
  {
    if steps == [] {
      InitHolds(s);
    } else {
      var last := steps[|steps| - 1];
      var mid := Execute(s, steps[..|steps| - 1]).value;
      EveryRunKeepsInv(s, steps[..|steps| - 1], mid);
      StepKeepsInv(mid, last);
    }
  }

  // When the orchestrator may leave `wait_until_parked`, every vCPU and, unless only vCPUs are
  // checkpointed, every device is parked, its slot holds the state it is in now, captured in this
  // cycle, and it has no write left to mark.
  lemma AllParkedMeansAllCaptured(s: State, steps: seq<Step>, t: State, i: nat)
    requires Init(s) && Execute(s, steps) == Some(t) && Enabled(t, Orch(AllParked))
    requires i < |t.parts| && (t.orch.op.CheckpointVcpus? ==> t.parts[i].kind.Vcpu?)
    ensures t.parts[i].pc.Spin?
    ensures t.parts[i].slot == Some(Captured(t.parts[i].local, t.orch.cycle))
    ensures t.parts[i].unmarked == {}
  {
    EveryRunKeepsInv(s, steps, t);
    AllCounted(t.parts, t.orch.op);
  }

  // From then until the release no vCPU has an enabled step and, unless only vCPUs are checkpointed, no
  // participant at all.
  lemma QuiescentWhileClosed(s: State, steps: seq<Step>, t: State, i: nat, act: Act)
    requires Init(s) && Execute(s, steps) == Some(t)
    requires t.orch.phase.Held? || t.orch.phase.ClearRequested? || t.orch.phase.SetReleased?
    requires i < |t.parts| && (t.orch.op.CheckpointVcpus? ==> t.parts[i].kind.Vcpu?)
    ensures !Enabled(t, Part(i, act))
  {
    EveryRunKeepsInv(s, steps, t);
    NobodyMoves(t, i, act);
  }

  // A checkpoint of the vCPUs alone never wakes or parks a device: it goes on serving.
  lemma DevicesGoOn(s: State, steps: seq<Step>, t: State, i: nat)
    requires Init(s) && Execute(s, steps) == Some(t)
    requires t.orch.op.CheckpointVcpus? && i < |t.parts| && t.parts[i].kind.Device?
    ensures t.parts[i].pc.Run? && !t.parts[i].wake
  {
    EveryRunKeepsInv(s, steps, t);
    assert PartOk(t.parts[i], i, t.orch);
  }

  // A worker woken for a checkpoint still sees the request: the freeze branch is never taken.
  lemma NobodyFreezes(s: State, steps: seq<Step>, t: State, i: nat)
    requires Init(s) && Execute(s, steps) == Some(t) && i < |t.parts|
    ensures !t.parts[i].pc.Exited?
    ensures t.parts[i].pc.Decide? ==> t.barrier.requested
  {
    EveryRunKeepsInv(s, steps, t);
  }

  // Whether dirty logging was left on: an arming switches it on, a stop attempt of a branch that
  // succeeds switches it off, and no other step of the run changes it.
  predicate LeftOn(s: State, steps: seq<Step>)
  {
    if steps == [] then false
    else
      var mid, last := Execute(s, steps[..|steps| - 1]), steps[|steps| - 1];
      if last == Orch(EnableLogging) then true
      else if mid.Some? && StopAttempt(mid.value.orch, last) && Succeeds(last.order) then false
      else LeftOn(s, steps[..|steps| - 1])
  }

  // Logging after a step.
  predicate LogsAfter(s: State, step: Step)
  {
    step == Orch(EnableLogging) || (s.mem.logging && !(StopAttempt(s.orch, step) && Succeeds(step.order)))
  }

  lemma TakeLogs(s: State)
    requires Inv(s) && Enabled(s, Orch(TakeStates))
    ensures Ordered(s, TakeStates).mem.logging == s.mem.logging
  {
    FreshSlotsCollect(s.parts, s.orch.op, s.orch.cycle);
  }

  lemma BodyLogs(s: State, order: Order)
    requires Enabled(s, Orch(order)) && BodyOrder(order) && !order.TakeStates?
    ensures Ordered(s, order).mem.logging == LogsAfter(s, Orch(order))
  {
  }

  lemma OtherLogs(s: State, order: Order)
    requires Enabled(s, Orch(order)) && !BodyOrder(order)
    ensures Ordered(s, order).mem.logging == s.mem.logging
  {
  }

  lemma StepLogs(s: State, step: Step)
    requires Inv(s) && Enabled(s, step)
    ensures Apply(s, step).mem.logging == LogsAfter(s, step)
  {
    if step.Orch? {
      if step.order.TakeStates? {
        TakeLogs(s);
      } else if BodyOrder(step.order) {
        BodyLogs(s, step.order);
      } else {
        OtherLogs(s, step.order);
      }
    }
  }

  // Dirty logging is on if and only if it was left on, in every run.
  lemma {:induction false} LoggingIsExact(s: State, steps: seq<Step>, t: State)
    requires Init(s) && Execute(s, steps) == Some(t)
    ensures t.mem.logging <==> LeftOn(s, steps)
  {
    if steps != [] {
      var front := steps[..|steps| - 1];
      var mid := Execute(s, front).value;
      LoggingIsExact(s, front, mid);
      EveryRunKeepsInv(s, front, mid);
      StepLogs(mid, steps[|steps| - 1]);
    }
  }

  // Some stop attempt of the run failed.
  ghost predicate SomeStopFails(s: State, steps: seq<Step>)
  {
    exists k :: 0 <= k < |steps| && FailsAt(s, steps, k)
  }

  predicate FailsAt(s: State, steps: seq<Step>, k: nat)
    requires k < |steps|
  {
    Execute(s, steps[..k]).Some? && StopFails(Execute(s, steps[..k]).value.orch, steps[k])
  }

  // So, unless a stop attempt failed, it is on exactly from the arming of a branch to the end of its
  // second barrier.
  lemma {:induction false} LoggingFollowsTheBranch(s: State, steps: seq<Step>, t: State)
    requires Init(s) && Execute(s, steps) == Some(t) && !SomeStopFails(s, steps)
    ensures t.mem.logging <==> LoggingExpected(t.orch)
  {
    EveryRunKeepsInv(s, steps, t);
    if steps != [] {
      var n := |steps| - 1;
      var front := steps[..n];
      var mid := Execute(s, front).value;
      if SomeStopFails(s, front) {
        var k :| 0 <= k < n && FailsAt(s, front, k);
        assert front[..k] == steps[..k];
        assert FailsAt(s, steps, k);
      }
      LoggingFollowsTheBranch(s, front, mid);
      EveryRunKeepsInv(s, front, mid);
      assert !FailsAt(s, steps, n);
      StepKeepsLogging(mid, steps[n]);
    }
  }

  // However an operation ends, the barrier is as at the start and the next one can run; and dirty
  // logging is off if and only if the last branch armed switched it off.
  lemma BarrierIsReusable(s: State, steps: seq<Step>, t: State)
    requires Init(s) && Execute(s, steps) == Some(t) && t.orch.phase.Idle?
    ensures !t.barrier.requested && t.barrier.parked == 0
    ensures forall i :: 0 <= i < |t.parts| ==> Free(t.parts[i])
    ensures t.mem.logging <==> LeftOn(s, steps)
    ensures !SomeStopFails(s, steps) ==> !t.mem.logging
  {
    EveryRunKeepsInv(s, steps, t);
    CountZero(t.parts);
    LoggingIsExact(s, steps, t);
    if !SomeStopFails(s, steps) { LoggingFollowsTheBranch(s, steps, t); }
  }

  // An image only ever appears at the end of a barrier's body, and then stays until the next start.
  lemma ImageAppears(s: State, step: Step)
    requires ControlInv(s) && Enabled(s, step) && Apply(s, step).orch.image.Some?
    ensures Apply(s, step).orch.op == s.orch.op
    ensures Apply(s, step).orch.image == s.orch.image ||
            (Apply(s, step).orch.image == Some(Result(s)) && BodyDone(s.orch) && Collects(s.orch))
  {
  }

  // --- what can go wrong without it ------------------------------------------------------------------

  lemma RunOneMore(s: State, steps: seq<Step>, t: State, step: Step)
    requires Execute(s, steps) == Some(t) && Enabled(t, step)
    ensures Execute(s, steps + [step]) == Some(Apply(t, step))
  {
    assert (steps + [step])[..|steps|] == steps;
  }

  lemma EntersTheGuest(s: State, steps: seq<Step>, t: State, i: nat, local: nat) returns (more: seq<Step>, u: State)
    requires Init(s) && Execute(s, steps) == Some(t) && t.orch.phase.Copying?
    requires i < |t.parts| && t.parts[i].kind.Vcpu?
    ensures |more| <= |steps| + 2 && Execute(s, more) == Some(u)
    ensures i < |u.parts| && u.parts[i].pc.Run? && u.parts[i].local == local && u.orch == t.orch && u.mem == t.mem
  {
    EveryRunKeepsInv(s, steps, t);
    assert PartOk(t.parts[i], i, t.orch);
    more, u := steps, t;
    if t.parts[i].pc.Check? {
      RunOneMore(s, steps, t, Part(i, Poll));
      more, u := steps + [Part(i, Poll)], Apply(t, Part(i, Poll));
    }
    RunOneMore(s, more, u, Part(i, Work(local)));
    more, u := more + [Part(i, Work(local))], Apply(u, Part(i, Work(local)));
  }

  // A byte of the file that is not the byte of RAM.
  ghost predicate Stale(m: Memory, r: nat, off: nat)
  {
    && r < |m.ram| && off < |m.ram[r]| && Base(Lens(m.ram), r) + off < |m.file|
    && m.file[Base(Lens(m.ram), r) + off] != m.ram[r][off]
  }

  lemma WriteMakesStale(u: State, i: nat, r: nat, off: nat) returns (step: Step)
    requires i < |u.parts| && u.parts[i].pc.Run? && r < |u.mem.ram| && off < |u.mem.ram[r]|
    requires Base(Lens(u.mem.ram), r) + off < |u.mem.file|
    ensures Enabled(u, step) && Apply(u, step).orch == u.orch && Apply(u, step).mem.file == u.mem.file
    ensures |Apply(u, step).parts| == |u.parts| && Apply(u, step).parts[i].local == u.parts[i].local
    ensures Stale(Apply(u, step).mem, r, off)
  {
    step := Part(i, Write(r, off, if u.mem.file[Base(Lens(u.mem.ram), r) + off] == 0 then 1 else 0));
    assert Lens(Apply(u, step).mem.ram) == Lens(u.mem.ram);
  }

  // Why pages are copied again and states captured at a barrier: while the guest runs, a vCPU can come into
  // any state, and any byte already in the file can change under it, within three steps.
  lemma CopyGoesStale(s: State, steps: seq<Step>, t: State, i: nat, local: nat, r: nat, off: nat)
    returns (more: seq<Step>, u: State)
    requires Init(s) && Execute(s, steps) == Some(t) && t.orch.phase.Copying?
    requires i < |t.parts| && t.parts[i].kind.Vcpu? && r < |t.mem.ram| && off < |t.mem.ram[r]|
    ensures |more| <= |steps| + 3 && Execute(s, more) == Some(u) && u.orch == t.orch && u.mem.file == t.mem.file
    ensures i < |u.parts| && u.parts[i].local == local && Stale(u.mem, r, off)
  {
    FileIsLongEnough(s, steps, t, r, off);
    var front, v := EntersTheGuest(s, steps, t, i, local);
    var step := WriteMakesStale(v, i, r, off);
    RunOneMore(s, front, v, step);
    more, u := front + [step], Apply(v, step);
  }

  lemma FileIsLongEnough(s: State, steps: seq<Step>, t: State, r: nat, off: nat)
    requires Init(s) && Execute(s, steps) == Some(t) && t.orch.phase.Copying?
    requires r < |t.mem.ram| && off < |t.mem.ram[r]|
    ensures Base(Lens(t.mem.ram), r) + off < |t.mem.file|
  {
    EveryRunKeepsInv(s, steps, t);
    BaseMonotone(Lens(t.mem.ram), r, |t.mem.ram|);
  }

  // Both dirty sources are empty after every collection, and the kernel's log whenever it is switched on.
  lemma LogsStartClean(s: State, steps: seq<Step>, t: State, order: Order, r: nat, page: nat)
    requires Init(s) && Execute(s, steps) == Some(t) && Enabled(t, Orch(order))
    ensures order.DrainLogs? || order.RecopyPages? ==>
              var m := Apply(t, Orch(order)).mem; !Marked(m.kvm, r, page) && !Marked(m.dev, r, page)
    ensures order.EnableLogging? && !t.mem.logging ==> !Marked(Apply(t, Orch(order)).mem.kvm, r, page)
  {
  }

  // Collecting leaves no capture of an awaited participant behind, so none is ever handed out twice.
  lemma CapturesAreTakenOnce(s: State, steps: seq<Step>, t: State, i: nat)
    requires Init(s) && Execute(s, steps) == Some(t) && Enabled(t, Orch(TakeStates))
    requires i < |t.parts| && (t.orch.op.CheckpointVcpus? ==> t.parts[i].kind.Vcpu?)
    ensures var u := Apply(t, Orch(TakeStates)); i < |u.parts| && u.parts[i].slot.None? && u.orch.phase == Held(1)
  {
    EveryRunKeepsInv(s, steps, t);
    FreshSlotsCollect(t.parts, t.orch.op, t.orch.cycle);
  }

  // Neither source sees the other's writers, which is why both are read: a vCPU's mark reaches the kernel's log
  // only, and only while that is on, a device's the region bitmaps only.
  lemma SourcesAreSeparate(s: State, steps: seq<Step>, t: State, i: nat, r: nat, page: nat)
    requires Init(s) && Execute(s, steps) == Some(t) && Enabled(t, Part(i, Mark(r, page)))
    ensures var m := Apply(t, Part(i, Mark(r, page))).mem;
            if t.parts[i].kind.Vcpu? then m.dev == t.mem.dev && (!t.mem.logging ==> m == t.mem) else m.kvm == t.mem.kvm
  {
  }

  // Anything an operation does can fail: at either of its first two steps at a barrier, and while copying. It
  // then lets everybody go, has failed and has no image.
  lemma AnythingCanFail(s: State, steps: seq<Step>, t: State, stops: bool) returns (step: Step, u: State)
    requires Init(s) && Execute(s, steps) == Some(t)
    requires t.orch.phase == Held(0) || t.orch.phase == Held(1) || t.orch.phase.Copying?
    ensures Execute(s, steps + [step]) == Some(u) && u.orch.image.None?
    ensures t.orch.phase.Held? ==> u.orch.failed && u.orch.phase.ClearRequested?
    ensures t.orch.phase.Copying? ==> u.orch.stage.Abort? && u.orch.phase.ClearReleased?
  {
    EveryRunKeepsInv(s, steps, t);
    step := Orch(if t.orch.phase.Copying? then CopyFailed else FailBody(stops));
    RunOneMore(s, steps, t, step);
    u := Apply(t, step);
  }

  // A machine without a vCPU refuses every operation, in every run.
  ghost predicate Refuses(s: State)
  {
    && (forall i :: 0 <= i < |s.parts| ==> s.parts[i].kind.Device?)
    && s.orch.phase.Idle? && s.orch.failed && s.orch.image.None?
  }

  lemma StepStillRefuses(s: State, step: Step)
    requires Refuses(s) && Enabled(s, step)
    ensures Refuses(Apply(s, step))
  {
  }

  lemma {:induction false} WithoutVcpusNothingStarts(s: State, steps: seq<Step>, t: State)
    requires Init(s) && Execute(s, steps) == Some(t) && forall i :: 0 <= i < |s.parts| ==> s.parts[i].kind.Device?
    ensures t.orch.phase.Idle? && t.orch.failed && t.orch.image.None? && Refuses(t)
  {
    if steps != [] {
      var front := steps[..|steps| - 1];
      var mid := Execute(s, front).value;
      WithoutVcpusNothingStarts(s, front, mid);
      StepStillRefuses(mid, steps[|steps| - 1]);
    }
  }

  // --- what an operation returns -------------------------------------------------------------------

  lemma {:induction false} ImageIsFrozen(s: State, steps: seq<Step>, t: State) returns (k: nat, u: State)
    requires Init(s) && Execute(s, steps) == Some(t) && t.orch.image.Some?
    ensures k < |steps| && Execute(s, steps[..k]) == Some(u)
    ensures u.orch.phase.Held? && u.orch.op == t.orch.op && (u.orch.op.Branch? ==> u.orch.stage.Final?)
    ensures t.orch.image.value ==
            Image(Locals(u.parts, t.orch.op), if WritesMemory(t.orch.op) then Some(Flat(u.mem.ram)) else None)
  {
    EveryRunKeepsInv(s, steps, t);
    var n := |steps| - 1;
    var mid := Execute(s, steps[..n]).value;
    EveryRunKeepsInv(s, steps[..n], mid);
    ImageAppears(mid, steps[n]);
    if mid.orch.image == t.orch.image {
      k, u := ImageIsFrozen(s, steps[..n], mid);
      assert steps[..n][..k] == steps[..k];
    } else {
      k, u := n, mid;
    }
  }

  // The places of the vCPUs, in order.
  ghost predicate VcpuPlaces(places: seq<nat>, parts: seq<Participant>)
  {
    && (forall j :: 0 <= j < |places| ==> places[j] < |parts| && parts[places[j]].kind.Vcpu?)
    && (forall j, k :: 0 <= j < k < |places| ==> places[j] < places[k])
    && (forall i :: 0 <= i < |parts| && parts[i].kind.Vcpu? ==> i in places)
  }

  ghost predicate StatesOfAll(states: seq<nat>, parts: seq<Participant>)
  {
    |states| == |parts| && forall i :: 0 <= i < |parts| ==> states[i] == parts[i].local
  }

  ghost predicate StatesOfVcpus(states: seq<nat>, parts: seq<Participant>, places: seq<nat>)
  {
    && VcpuPlaces(places, parts) && |states| == |places|
    && forall j :: 0 <= j < |places| ==> states[j] == parts[places[j]].local
  }

  lemma {:induction false} AllLocals(parts: seq<Participant>, op: Op)
    requires !op.CheckpointVcpus?
    ensures StatesOfAll(Locals(parts, op), parts)
  {
    if parts != [] { AllLocals(parts[..|parts| - 1], op); }
  }

  lemma OneMorePart(states: seq<nat>, parts: seq<Participant>, places: seq<nat>, p: Participant)
    requires StatesOfVcpus(states, parts, places)
    ensures p.kind.Device? ==> StatesOfVcpus(states, parts + [p], places)
    ensures p.kind.Vcpu? ==> StatesOfVcpus(states + [p.local], parts + [p], places + [|parts|])
  {
    var more := parts + [p];
    if p.kind.Vcpu? {
      forall i | 0 <= i < |more| && more[i].kind.Vcpu? ensures i in places + [|parts|] {
        if i == |parts| { assert (places + [|parts|])[|places|] == i; }
      }
    }
  }

  lemma {:induction false} VcpuLocals(parts: seq<Participant>) returns (places: seq<nat>)
    ensures StatesOfVcpus(Locals(parts, CheckpointVcpus), parts, places)
  {
    places := [];
    if parts != [] {
      var n := |parts| - 1;
      places := VcpuLocals(parts[..n]);
      OneMorePart(Locals(parts[..n], CheckpointVcpus), parts[..n], places, parts[n]);
      assert parts == parts[..n] + [parts[n]];
      if parts[n].kind.Vcpu? { places := places + [n]; }
    }
  }

  // A finished operation returns the machine exactly as it stood at one point of the run, a closed
  // barrier: the state of every participant, or of exactly the vCPUs if only they are checkpointed, in
  // order, and for a branch or a snapshot every byte of RAM, region after region.
  lemma ResultIsTheMachineAtTheBarrier(s: State, steps: seq<Step>, t: State)
    returns (k: nat, u: State, places: seq<nat>)
    requires Init(s) && Execute(s, steps) == Some(t) && t.orch.image.Some?
    ensures k < |steps| && Execute(s, steps[..k]) == Some(u)
    ensures u.orch.phase.Held? && u.orch.op == t.orch.op && (u.orch.op.Branch? ==> u.orch.stage.Final?)
    ensures var states := t.orch.image.value.states;
            if t.orch.op.CheckpointVcpus? then StatesOfVcpus(states, u.parts, places) else StatesOfAll(states, u.parts)
    ensures t.orch.image.value.memory ==
            if t.orch.op.Branch? || t.orch.op.SnapshotInPlace? then Some(Flat(u.mem.ram)) else None
  {
    k, u := ImageIsFrozen(s, steps, t);
    places := VcpuLocals(u.parts);
    if !t.orch.op.CheckpointVcpus? { AllLocals(u.parts, t.orch.op); }
  }

  // Success always comes with such an image.
  lemma SuccessHasAnImage(s: State, steps: seq<Step>, t: State)
    requires Init(s) && Execute(s, steps) == Some(t) && t.orch.phase.Idle? && !t.orch.failed
    ensures t.orch.image.Some?
  {
    EveryRunKeepsInv(s, steps, t);
  }

  // Reading the slots at a barrier never finds one empty.
  lemma CollectNeverFails(s: State, steps: seq<Step>, t: State)
    requires Init(s) && Execute(s, steps) == Some(t) && Enabled(t, Orch(TakeStates))
    ensures Collected(t.parts, t.orch.op) == Some(Locals(t.parts, t.orch.op))
  {
    EveryRunKeepsInv(s, steps, t);
    FreshSlotsCollect(t.parts, t.orch.op, t.orch.cycle);
  }
}
