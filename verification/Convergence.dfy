// Fair infinite runs of controller and agent come to rest.
module Convergence {
  import opened Prelude
  import opened ControlPlane

  // --- the part of a machine that decides its progress -----------------------------------

  // `pending` is the action the pass decided on when it loaded the row.
  datatype View = View(desired: bool, observed: State, placed: bool, retry: nat, pending: Option<Action>,
                       orders: seq<bool>, record: Record, reports: seq<State>)

  function ViewOf(m: Machine): View
  {
    var link := Mine(m);
    View(m.row.desired, m.row.observed, m.row.host.Some?, m.row.retry,
         if m.loaded.None? then None else Some(ActionFor(m.loaded.value)),
         link.orders, link.record, link.reports)
  }

  datatype Kind = Loading | Acting | Receiving | Delivering

  function Deciding(v: View): Action
  {
    Decide(v.desired, false, Observed(v.observed, v.placed, v.retry), MAX_RETRIES)
  }

  predicate StartPending(v: View)
  {
    v.pending == Some(AssignAndStart) || v.pending == Some(Retry)
  }

  function Acted(v: View): View
  {
    var w := v.(pending := None);
    if StartPending(v) then
      w.(placed := true, orders := v.orders + [true], retry := v.retry + (if v.pending == Some(Retry) then 1 else 0))
    else if v.pending == Some(Stop) && v.placed then w.(orders := v.orders + [false])
    else w
  }

  function Moved(v: View, k: Kind, boots: bool): View
  {
    match k
    case Loading => if v.pending.None? then v.(pending := Some(Deciding(v))) else v
    case Acting => Acted(v)
    case Receiving =>
      if v.orders == [] then v
      else
        var link := Handled(Link(v.orders, v.record, 0, v.reports), boots);
        v.(orders := link.orders, record := link.record, reports := link.reports)
    case Delivering =>
      if v.reports == [] then v else v.(observed := v.reports[0], reports := v.reports[1..])
  }

  // A stop report was lost while the machine is unwanted: the next stop will be reported again.
  ghost predicate Healing(v: View)
  {
    && !v.desired && v.observed == Running && v.record == Down && v.reports == []
    && Count(v.orders, true) == 0 && !StartPending(v)
  }

  ghost predicate ViewInv(v: View)
  {
    && v.retry <= MAX_RETRIES && Known(v.observed)
    && (!v.placed ==> v.observed == Created && v.orders == [] && v.reports == [])
    && (forall i :: 0 <= i < |v.reports| ==> Reportable(v.reports[i]))
    && (Synced(v.observed, Link(v.orders, v.record, 0, v.reports)) || Healing(v))
    && (v.pending == Some(Retry) ==> v.retry < MAX_RETRIES)
    && (v.pending == Some(Stop) ==> v.placed)
    && v.pending != Some(Destroy)
  }

  // What convergence starts from: reports in agreement with the record, or about to be, and a wanted
  // machine's recorded worker alive.
  ghost predicate Sound(m: Machine)
  {
    Inv(m) && (InSync(m) || Healing(ViewOf(m))) && (m.row.desired ==> Staffed(Mine(m)))
  }

  lemma ViewKeepsInv(m: Machine)
    requires Sound(m)
    ensures ViewInv(ViewOf(m))
  {
  }

  // What a step is to the view; steps of other hosts and of the spec are nothing to it.
  function KindOf(m: Machine, l: Label): Option<Kind>
  {
    match l
    case Load => Some(Loading)
    case Act(_, _) => Some(Acting)
    case Receive(h, _) => if Some(h) == m.row.host then Some(Receiving) else None
    case Deliver(h) => if Some(h) == m.row.host then Some(Delivering) else None
    case _ => None
  }

  function Boots(l: Label): bool { l.Receive? && l.boots }

  function Step(v: View, k: Option<Kind>, boots: bool): View
  {
    if k.None? then v else Moved(v, k.value, boots)
  }

  // The standing assumptions on a step: some host fits, its agent stays connected, passes finish,
  // reports arrive, workers live on and the spec is fixed.
  predicate Good(m: Machine, l: Label)
  {
    && (l.Act? ==> l.choice.Some? && l.connected)
    && (l.SetDesired? ==> l.running == m.row.desired)
    && !l.AbortPass? && !l.LoseReport? && !l.Reconnect? && !l.WorkerExits?
  }

  lemma ActMoves(m: Machine, l: Label)
    requires Inv(m) && Good(m, l) && l.Act?
    ensures ViewOf(Next(m, l)) == Acted(ViewOf(m))
  {
    if m.loaded.Some? {
      assert m.loaded.value.host == m.row.host;
    }
  }

  lemma ViewMoves(m: Machine, l: Label)
    requires Inv(m) && Good(m, l)
    ensures ViewOf(Next(m, l)) == Step(ViewOf(m), KindOf(m, l), Boots(l))
  {
    match l {
      case Load =>
      case Act(_, _) => ActMoves(m, l);
      case Receive(h, boots) => if Some(h) != m.row.host { assert At(m.links, h) == IDLE; }
      case Deliver(h) => if Some(h) != m.row.host { assert At(m.links, h) == IDLE; }
      case _ =>
    }
  }

  // --- counting ------------------------------------------------------------------------------

  function Count<T(==)>(s: seq<T>, x: T): nat
  {
    if s == [] then 0 else (if s[0] == x then 1 else 0) + Count(s[1..], x)
  }

  lemma {:induction false} CountLast<T>(s: seq<T>, y: T, x: T)
    ensures Count(s + [y], x) == Count(s, x) + (if y == x then 1 else 0)
  {
    if s == [] {
      assert s + [y] == [y];
    } else {
      assert (s + [y])[1..] == s[1..] + [y];
      CountLast(s[1..], y, x);
    }
  }

  lemma {:induction false} CountIn<T>(s: seq<T>, x: T)
    ensures Count(s, x) > 0 <==> x in s
  {
    if s != [] { CountIn(s[1..], x); }
  }

  lemma {:induction false} IndexLast<T>(s: seq<T>, y: T, x: T)
    requires x in s
    ensures IndexOf(s + [y], x) == IndexOf(s, x)
  {
    if s[0] != x {
      assert (s + [y])[1..] == s[1..] + [y];
      IndexLast(s[1..], y, x);
    }
  }

  // --- ranks ------------------------------------------------------------------------------------

  datatype Rank = Rank(a: nat, b: nat, c: nat)

  predicate Less(r: Rank, s: Rank)
  {
    r.a < s.a || (r.a == s.a && (r.b < s.b || (r.b == s.b && r.c < s.c)))
  }

  // Work left over from the opposite wish, and how deep it lies in its channel.
  function Leftover(v: View): nat
  {
    if v.desired then
      (if v.pending == Some(Stop) then 3 else 0) + 2 * Count(v.orders, false) + Count(v.reports, Stopped)
    else
      (if StartPending(v) then 3 else 0) + 2 * Count(v.orders, true) + Count(v.reports, Running)
  }

  predicate ActFirst(v: View)
  {
    if v.desired then v.pending == Some(Stop) else StartPending(v)
  }

  function Depth(v: View): nat
  {
    var undone := if v.desired then Stopped else Running;
    if ActFirst(v) then 0
    else if undone in v.reports then IndexOf(v.reports, undone)
    else IndexOf(v.orders, !v.desired)
  }

  // Nothing left over, but the wish has not got through: how far round the loop it is.
  function Stage(v: View): nat
  {
    var wish := if v.desired then StartPending(v) else v.pending == Some(Stop);
    if v.reports != [] then 0
    else if v.orders != [] then 1
    else if wish then 2
    else if v.pending.None? then 3
    else 4
  }

  function RetryStage(v: View): nat
  {
    if v.pending == Some(Retry) then 0 else if v.pending.None? then 1 else 2
  }

  function Residue(v: View): nat
  {
    (if StartPending(v) then 3 else 0) + 2 * |v.orders| + |v.reports|
  }

  function RankOf(v: View): Rank
  {
    if Leftover(v) > 0 then Rank(Leftover(v), Depth(v), 0)
    else if v.desired then
      if v.record == Up then Rank(0, 0, |v.reports|)
      else if v.observed != Failed then Rank(0, 3, Stage(v))
      else if v.retry < MAX_RETRIES then Rank(0, 2, 3 * (MAX_RETRIES - v.retry) + RetryStage(v))
      else Rank(0, 1, Residue(v))
    else if v.observed == Running then Rank(0, 1, Stage(v))
    else Rank(0, 0, 0)
  }

  // The kind of step that makes progress.
  function Helpful(v: View): Kind
  {
    var undone := if v.desired then Stopped else Running;
    if Leftover(v) > 0 then
      if ActFirst(v) then Acting else if undone in v.reports then Delivering else Receiving
    else if v.desired && v.record == Up then Delivering
    else if v.desired && v.observed == Failed then
      if v.retry < MAX_RETRIES then if v.pending.None? then Loading else Acting
      else if StartPending(v) then Acting else if v.orders != [] then Receiving else Delivering
    else if v.reports != [] then Delivering
    else if v.orders != [] then Receiving
    else if v.pending.None? then Loading
    else Acting
  }

  predicate Rested(v: View)
  {
    && Leftover(v) == 0
    && if v.desired then
         (v.record == Up && v.reports == [])
         || (v.record != Up && v.observed == Failed && v.retry == MAX_RETRIES && v.orders == [] && v.reports == [] &&
             !StartPending(v))
       else v.observed != Running
  }

  // What one step does to the rank.
  ghost predicate Progress(v: View, w: View, k: Kind)
  {
    && !Less(RankOf(v), RankOf(w))
    && (!Rested(v) && RankOf(w) == RankOf(v) ==> Helpful(w) == Helpful(v))
    && (!Rested(v) && k == Helpful(v) ==> Less(RankOf(w), RankOf(v)))
    && (Rested(v) ==> Rested(w))
  }

  lemma Append<T>(s: seq<T>, y: T, x: T)
    ensures Count(s + [y], x) == Count(s, x) + (if y == x then 1 else 0)
    ensures x in s ==> IndexOf(s + [y], x) == IndexOf(s, x)
    ensures Count(s, x) > 0 <==> x in s
  {
    CountLast(s, y, x);
    CountIn(s, x);
    if x in s { IndexLast(s, y, x); }
  }

  lemma Counts(v: View)
    ensures forall b :: Count(v.orders, b) > 0 <==> b in v.orders
    ensures forall s :: Count(v.reports, s) > 0 <==> s in v.reports
  {
    forall b ensures Count(v.orders, b) > 0 <==> b in v.orders { CountIn(v.orders, b); }
    forall s ensures Count(v.reports, s) > 0 <==> s in v.reports { CountIn(v.reports, s); }
  }

  lemma LoadProgress(v: View, boots: bool)
    requires ViewInv(v)
    ensures Progress(v, Moved(v, Loading, boots), Loading)
  {
    Counts(v);
  }

  lemma ActStart(v: View)
    requires ViewInv(v) && StartPending(v)
    ensures Progress(v, Acted(v), Acting)
  {
    Counts(v);
    Append(v.orders, true, !v.desired);
  }

  lemma ActStop(v: View)
    requires ViewInv(v) && v.pending == Some(Stop)
    ensures Progress(v, Acted(v), Acting)
  {
    Counts(v);
    Append(v.orders, false, !v.desired);
  }

  lemma ActNothing(v: View)
    requires ViewInv(v) && !StartPending(v) && v.pending != Some(Stop)
    ensures Progress(v, Acted(v), Acting)
  {
    Counts(v);
  }

  lemma ActProgress(v: View, boots: bool)
    requires ViewInv(v)
    ensures Progress(v, Moved(v, Acting, boots), Acting)
  {
    if StartPending(v) { ActStart(v); } else if v.pending == Some(Stop) { ActStop(v); } else { ActNothing(v); }
  }

  lemma ReceiveAgain(v: View, boots: bool)
    requires ViewInv(v) && v.orders != [] && v.orders[0] && v.record == Up
    ensures Progress(v, Moved(v, Receiving, boots), Receiving)
  {
    Counts(v);
  }

  lemma ReceiveBoot(v: View)
    requires ViewInv(v) && v.orders != [] && v.orders[0] && v.record != Up
    ensures Progress(v, Moved(v, Receiving, true), Receiving)
  {
    Counts(v);
    Append(v.reports, Running, if v.desired then Stopped else Running);
  }

  lemma ReceiveFail(v: View)
    requires ViewInv(v) && v.orders != [] && v.orders[0] && v.record != Up
    ensures Progress(v, Moved(v, Receiving, false), Receiving)
  {
    Counts(v);
    Append(v.reports, Failed, if v.desired then Stopped else Running);
  }

  lemma ReceiveStopWanted(v: View, boots: bool)
    requires ViewInv(v) && v.orders != [] && !v.orders[0] && v.desired
    ensures Progress(v, Moved(v, Receiving, boots), Receiving)
  {
    Counts(v);
    Append(v.reports, Stopped, Stopped);
  }

  lemma ReceiveStopUnwanted(v: View, boots: bool)
    requires ViewInv(v) && v.orders != [] && !v.orders[0] && !v.desired
    ensures Progress(v, Moved(v, Receiving, boots), Receiving)
  {
    Counts(v);
    Append(v.reports, Stopped, Running);
  }

  lemma ReceiveProgress(v: View, boots: bool)
    requires ViewInv(v)
    ensures Progress(v, Moved(v, Receiving, boots), Receiving)
  {
    if v.orders == [] {
      Counts(v);
    } else if v.orders[0] && v.record == Up {
      ReceiveAgain(v, boots);
    } else if v.orders[0] {
      if boots { ReceiveBoot(v); } else { ReceiveFail(v); }
    } else {
      if v.desired { ReceiveStopWanted(v, boots); } else { ReceiveStopUnwanted(v, boots); }
    }
  }

  lemma DeliverWanted(v: View, boots: bool)
    requires ViewInv(v) && v.desired
    ensures Progress(v, Moved(v, Delivering, boots), Delivering)
  {
    Counts(v);
  }

  lemma DeliverUnwanted(v: View, boots: bool)
    requires ViewInv(v) && !v.desired
    ensures Progress(v, Moved(v, Delivering, boots), Delivering)
  {
    Counts(v);
  }

  lemma DeliverProgress(v: View, boots: bool)
    requires ViewInv(v)
    ensures Progress(v, Moved(v, Delivering, boots), Delivering)
  {
    if v.desired { DeliverWanted(v, boots); } else { DeliverUnwanted(v, boots); }
  }

  // --- infinite runs ---------------------------------------------------------------------------

  type Behaviour = nat -> Machine
  type Schedule = nat -> Label

  ghost predicate Steps(run: Behaviour, labels: Schedule, i: nat)
  {
    run(i + 1) == Next(run(i), labels(i))
  }

  ghost predicate IsRun(run: Behaviour, labels: Schedule)
  {
    Init(run(0)) && forall i: nat :: Steps(run, labels, i)
  }

  // From `n` on the spec stays as it is, a host fits and its agent is connected.
  ghost predicate SteadyFrom(run: Behaviour, labels: Schedule, n: nat)
  {
    forall i: nat :: n <= i ==> Good(run(i), labels(i))
  }

  // A kind of step has its turn at `i`; channels have turns only once the machine is placed.
  predicate Turn(m: Machine, l: Label, k: Kind)
  {
    KindOf(m, l) == Some(k) || (m.row.host.None? && (k == Receiving || k == Delivering))
  }

  ghost predicate TurnAfter(run: Behaviour, labels: Schedule, n: nat, k: Kind)
  {
    exists i: nat :: n <= i && Turn(run(i), labels(i), k)
  }

  // Every kind of step keeps having its turn.
  ghost predicate Fair(run: Behaviour, labels: Schedule)
  {
    forall n: nat, k: Kind :: TurnAfter(run, labels, n, k)
  }

  lemma {:induction false} RunInv(run: Behaviour, labels: Schedule, i: nat)
    requires IsRun(run, labels)
    ensures Inv(run(i))
  {
    if i > 0 {
      RunInv(run, labels, i - 1);
      assert Steps(run, labels, i - 1);
      StepKeepsInv(run(i - 1), labels(i - 1));
    }
  }

  lemma StepProgress(m: Machine, l: Label)
    requires Sound(m) && Good(m, l)
    ensures KindOf(m, l).Some? ==> Progress(ViewOf(m), ViewOf(Next(m, l)), KindOf(m, l).value)
    ensures KindOf(m, l).None? ==> ViewOf(Next(m, l)) == ViewOf(m)
  {
    ViewMoves(m, l);
    ViewKeepsInv(m);
    match KindOf(m, l) {
      case None =>
      case Some(Loading) => LoadProgress(ViewOf(m), Boots(l));
      case Some(Acting) => ActProgress(ViewOf(m), Boots(l));
      case Some(Receiving) => ReceiveProgress(ViewOf(m), Boots(l));
      case Some(Delivering) => DeliverProgress(ViewOf(m), Boots(l));
    }
  }

  lemma HealingStep(v: View, k: Kind, boots: bool)
    requires ViewInv(v) && Healing(v)
    ensures var w := Moved(v, k, boots); Healing(w) || Synced(w.observed, Link(w.orders, w.record, 0, w.reports))
  {
    Append(v.orders, false, true);
  }

  lemma StepKeepsSound(m: Machine, l: Label)
    requires Sound(m) && Good(m, l)
    ensures Sound(Next(m, l)) && Next(m, l).row.desired == m.row.desired
  {
    StepKeepsInv(m, l);
    if m.row.desired { StepKeepsStaff(m, l); }
    if InSync(m) {
      StepKeepsSync(m, l);
    } else {
      ViewMoves(m, l);
      ViewKeepsInv(m);
      if KindOf(m, l).Some? { HealingStep(ViewOf(m), KindOf(m, l).value, Boots(l)); }
    }
  }

  // A helpful channel step has something to move, so the machine is placed.
  lemma HelpfulIsPossible(m: Machine)
    requires Sound(m) && !Rested(ViewOf(m)) && m.row.host.None?
    ensures Helpful(ViewOf(m)) == Loading || Helpful(ViewOf(m)) == Acting
  {
    Counts(ViewOf(m));
  }

  // Up to the helpful step's turn, some step lowers the rank or the machine rests.
  lemma {:induction false} Lowers(run: Behaviour, labels: Schedule, n: nat, i: nat) returns (k: nat)
    requires IsRun(run, labels) && SteadyFrom(run, labels, n) && n <= i && Sound(run(n))
    requires !Rested(ViewOf(run(n))) && Turn(run(i), labels(i), Helpful(ViewOf(run(n))))
    ensures n < k && Sound(run(k))
    ensures Rested(ViewOf(run(k))) || Less(RankOf(ViewOf(run(k))), RankOf(ViewOf(run(n))))
    decreases i - n
  {
    var v, w := ViewOf(run(n)), ViewOf(run(n + 1));
    OneStep(run, labels, n);
    if Rested(w) || Less(RankOf(w), RankOf(v)) {
      k := n + 1;
    } else {
      k := Lowers(run, labels, n + 1, i);
    }
  }

  lemma OneStep(run: Behaviour, labels: Schedule, n: nat)
    requires IsRun(run, labels) && SteadyFrom(run, labels, n) && Sound(run(n)) && !Rested(ViewOf(run(n)))
    ensures Sound(run(n + 1))
    ensures var v, w := ViewOf(run(n)), ViewOf(run(n + 1));
            Rested(w) || Less(RankOf(w), RankOf(v)) ||
            (RankOf(w) == RankOf(v) && Helpful(w) == Helpful(v) && !Turn(run(n), labels(n), Helpful(v)))
  {
    assert Steps(run, labels, n) && Good(run(n), labels(n));
    StepProgress(run(n), labels(n));
    StepKeepsSound(run(n), labels(n));
    if run(n).row.host.None? { HelpfulIsPossible(run(n)); }
  }

  lemma {:induction false} Rests(run: Behaviour, labels: Schedule, n: nat) returns (k: nat)
    requires IsRun(run, labels) && Fair(run, labels) && SteadyFrom(run, labels, n) && Sound(run(n))
    ensures n <= k && Rested(ViewOf(run(k))) && Sound(run(k))
    decreases RankOf(ViewOf(run(n))).a, RankOf(ViewOf(run(n))).b, RankOf(ViewOf(run(n))).c
  {
    if Rested(ViewOf(run(n))) {
      k := n;
    } else {
      assert TurnAfter(run, labels, n, Helpful(ViewOf(run(n))));
      var i: nat :| n <= i && Turn(run(i), labels(i), Helpful(ViewOf(run(n))));
      var j := Lowers(run, labels, n, i);
      if Rested(ViewOf(run(j))) { k := j; } else { k := Rests(run, labels, j); }
    }
  }

  lemma RestedStep(m: Machine, l: Label)
    requires Sound(m) && Good(m, l) && Rested(ViewOf(m))
    ensures Rested(ViewOf(Next(m, l))) && Sound(Next(m, l))
  {
    StepProgress(m, l);
    StepKeepsSound(m, l);
  }

  lemma {:induction false} StaysRested(run: Behaviour, labels: Schedule, k: nat, i: nat)
    requires IsRun(run, labels) && SteadyFrom(run, labels, k) && Sound(run(k)) && Rested(ViewOf(run(k))) && k <= i
    ensures Rested(ViewOf(run(i))) && Sound(run(i))
    decreases i - k
  {
    if i > k {
      var j := i - 1;
      StaysRested(run, labels, k, j);
      assert Steps(run, labels, j) && Good(run(j), labels(j));
      RestedStep(run(j), labels(j));
    }
  }

  // Nothing more to do: the wish is met, or the machine rests failed with its retries spent.
  predicate ConvergedWith(row: Row, link: Link)
  {
    && ActionFor(row) == NoAction
    && if row.desired then
         (row.observed == Running && link.record == Up && link.workers == 1)
         || (row.observed == Failed && row.retry == MAX_RETRIES && link.record != Up && link.workers == 0)
       else row.observed != Running && link.record != Up && link.workers == 0
  }

  predicate Converged(m: Machine)
  {
    ConvergedWith(m.row, Mine(m))
  }

  lemma RestedIsConverged(m: Machine)
    requires Sound(m) && Rested(ViewOf(m))
    ensures Converged(m)
  {
    Counts(ViewOf(m));
  }

  // From any sound point of any fair run where the spec stays fixed, a host fits, its agent is
  // connected and passes, reports and workers do not fail, there comes a point after which the
  // machine is converged forever.
  lemma EveryFairRunConverges(run: Behaviour, labels: Schedule, n: nat) returns (k: nat)
    requires IsRun(run, labels) && Fair(run, labels) && SteadyFrom(run, labels, n) && Sound(run(n))
    ensures n <= k && forall i: nat :: k <= i ==> Converged(run(i))
  {
    k := Rests(run, labels, n);
    forall i: nat | k <= i ensures Converged(run(i)) {
      StaysRested(run, labels, k, i);
      RestedIsConverged(run(i));
    }
  }

  // A point is sound as long as no report was lost and no worker ended by itself before it.
  lemma {:induction false} UndisturbedIsSound(run: Behaviour, labels: Schedule, n: nat)
    requires IsRun(run, labels) && forall i: nat :: i < n ==> !labels(i).LoseReport? && !labels(i).WorkerExits?
    ensures Inv(run(n)) && InSync(run(n)) && Staffed(Mine(run(n))) && Sound(run(n))
  {
    if n > 0 {
      UndisturbedIsSound(run, labels, n - 1);
      assert Steps(run, labels, n - 1);
      StepKeepsInv(run(n - 1), labels(n - 1));
      StepKeepsSync(run(n - 1), labels(n - 1));
      StepKeepsStaff(run(n - 1), labels(n - 1));
    }
  }

  // --- after a loss ------------------------------------------------------------------------------

  predicate NothingUnderWay(m: Machine)
  {
    m.loaded.None? && Mine(m).orders == [] && Mine(m).reports == []
  }

  // Controller and agent agree, or disagree in the one way the controller acts on.
  predicate RecoverableWith(row: Row, link: Link)
  {
    if row.desired then (row.observed == Running <==> link.record == Up) && Staffed(link)
    else link.record == Up ==> row.observed == Running
  }

  predicate Recoverable(m: Machine)
  {
    RecoverableWith(m.row, Mine(m))
  }

  ghost predicate Converges(run: Behaviour, n: nat)
  {
    exists k: nat :: n <= k && ConvergedFrom(run, k)
  }

  ghost predicate ConvergedFrom(run: Behaviour, k: nat)
  {
    forall i: nat :: k <= i ==> Converged(run(i))
  }

  lemma RecoverableIsSound(m: Machine)
    requires Inv(m) && NothingUnderWay(m) && Recoverable(m)
    ensures Sound(m)
  {
  }

  // The controller sees nothing to do and nothing is under way: row and host stay as they are.
  predicate Still(m: Machine)
  {
    && ActionFor(m.row) == NoAction && (m.loaded.Some? ==> ActionFor(m.loaded.value) == NoAction)
    && Mine(m).orders == [] && Mine(m).reports == []
  }

  // Wanted and recorded as running, but not known to run: every start is skipped without a report.
  predicate Unheard(m: Machine)
  {
    && m.row.desired && m.row.observed != Running && Mine(m).record == Up
    && false !in Mine(m).orders && Mine(m).reports == []
    && (m.loaded.Some? ==> ActionFor(m.loaded.value) != Stop)
  }

  lemma StillStep(m: Machine, l: Label)
    requires Inv(m) && Good(m, l) && Still(m)
    ensures Still(Next(m, l)) && Next(m, l).row == m.row && Mine(Next(m, l)) == Mine(m)
  {
  }

  lemma UnheardStep(m: Machine, l: Label)
    requires Inv(m) && Good(m, l) && Unheard(m)
    ensures Unheard(Next(m, l))
  {
  }

  lemma {:induction false} NeverHeals(run: Behaviour, labels: Schedule, n: nat, i: nat)
    requires IsRun(run, labels) && SteadyFrom(run, labels, n) && n <= i
    requires NothingUnderWay(run(n)) && !Recoverable(run(n))
    ensures if Unheard(run(n)) then Unheard(run(i))
            else Still(run(i)) && run(i).row == run(n).row && Mine(run(i)) == Mine(run(n))
    decreases i - n
  {
    if i > n {
      var j := i - 1;
      NeverHeals(run, labels, n, j);
      RunInv(run, labels, j);
      assert Steps(run, labels, j) && Good(run(j), labels(j));
      if Unheard(run(n)) { UnheardStep(run(j), labels(j)); } else { StillStep(run(j), labels(j)); }
    }
  }

  // After any losses and exits, from a point with nothing under way: the run converges if and only if
  // a wanted machine's stored state, record and worker agree, and an unwanted one is not running unseen.
  lemma ConvergesExactlyWhen(run: Behaviour, labels: Schedule, n: nat)
    requires IsRun(run, labels) && Fair(run, labels) && SteadyFrom(run, labels, n) && NothingUnderWay(run(n))
    ensures Converges(run, n) <==> Recoverable(run(n))
  {
    RunInv(run, labels, n);
    if Recoverable(run(n)) {
      RecoverableIsSound(run(n));
      var k := EveryFairRunConverges(run, labels, n);
      assert ConvergedFrom(run, k);
    } else {
      forall k: nat | n <= k ensures !ConvergedFrom(run, k) {
        NeverHeals(run, labels, n, k);
        assert !Converged(run(k));
      }
    }
  }

  // --- such runs exist --------------------------------------------------------------------------

  // Turns in a circle, the fourth of the run replaced by `fourth`.
  function Turns(h: HostId, fourth: Label, i: nat): Label
  {
    if i == 3 then fourth
    else
      match i % 4
      case 0 => Load
      case 1 => Act(Some(h), true)
      case 2 => Receive(h, true)
      case _ => Deliver(h)
  }

  function After(m: Machine, h: HostId, fourth: Label, i: nat): Machine
  {
    if i == 0 then m else Next(After(m, h, fourth, i - 1), Turns(h, fourth, i - 1))
  }

  lemma SameHost(m: Machine, l: Label, h: HostId)
    requires Inv(m) && (l.Act? ==> l.choice == Some(h)) && !l.AbortPass?
    requires m.row.host == None || m.row.host == Some(h)
    ensures Next(m, l).row.host == None || Next(m, l).row.host == Some(h)
  {
  }

  lemma {:induction false} OnlyHost(m: Machine, h: HostId, fourth: Label, i: nat)
    requires Init(m) && !fourth.Act? && !fourth.AbortPass?
    ensures var n := After(m, h, fourth, i); Inv(n) && (n.row.host == None || n.row.host == Some(h))
  {
    if i > 0 {
      OnlyHost(m, h, fourth, i - 1);
      SameHost(After(m, h, fourth, i - 1), Turns(h, fourth, i - 1), h);
      StepKeepsInv(After(m, h, fourth, i - 1), Turns(h, fourth, i - 1));
    }
  }

  function Slot(k: Kind): nat
  {
    match k case Loading => 0 case Acting => 1 case Receiving => 2 case Delivering => 3
  }

  function Circle(m: Machine, h: HostId, fourth: Label): Behaviour
  {
    (i: nat) => After(m, h, fourth, i)
  }

  function Circling(h: HostId, fourth: Label): Schedule
  {
    (i: nat) => Turns(h, fourth, i)
  }

  lemma CircleHost(m: Machine, h: HostId, fourth: Label, i: nat)
    requires Init(m) && !fourth.Act? && !fourth.AbortPass?
    ensures Circle(m, h, fourth)(i).row.host == None || Circle(m, h, fourth)(i).row.host == Some(h)
  {
    OnlyHost(m, h, fourth, i);
  }

  lemma TurnAt(m: Machine, h: HostId, fourth: Label, n: nat, k: Kind)
    requires n > 0 && (m.row.host == None || m.row.host == Some(h))
    ensures Turn(m, Turns(h, fourth, 4 * n + Slot(k)), k)
  {
    assert (4 * n + Slot(k)) % 4 == Slot(k);
  }

  lemma CircleTurns(m: Machine, h: HostId, fourth: Label, n: nat, k: Kind)
    requires Init(m) && !fourth.Act? && !fourth.AbortPass?
    ensures TurnAfter(Circle(m, h, fourth), Circling(h, fourth), n, k)
  {
    var i := 4 * (n + 1) + Slot(k);
    CircleHost(m, h, fourth, i);
    TurnAt(Circle(m, h, fourth)(i), h, fourth, n + 1, k);
    assert n <= i && Turn(Circle(m, h, fourth)(i), Circling(h, fourth)(i), k);
  }

  lemma CircleIsFair(m: Machine, h: HostId, fourth: Label)
    requires Init(m) && !fourth.Act? && !fourth.AbortPass?
    ensures var run, labels := Circle(m, h, fourth), Circling(h, fourth);
            IsRun(run, labels) && run(0) == m && Fair(run, labels) && SteadyFrom(run, labels, 4)
  {
    var run, labels := Circle(m, h, fourth), Circling(h, fourth);
    forall i: nat ensures Steps(run, labels, i) { assert run(i + 1) == After(m, h, fourth, i + 1); }
    forall n: nat, k: Kind ensures TurnAfter(run, labels, n, k) { CircleTurns(m, h, fourth, n, k); }
  }

  // Taking turns in a circle is a fair, steady run.
  lemma FairRunsExist(m: Machine, h: HostId)
    requires Init(m)
    ensures var run, labels := Circle(m, h, Deliver(h)), Circling(h, Deliver(h));
            IsRun(run, labels) && run(0) == m && Fair(run, labels) && SteadyFrom(run, labels, 0) && Sound(m)
  {
    CircleIsFair(m, h, Deliver(h));
  }

  // With the first report lost nothing is under way after one round, and the machine runs unknown to
  // the controller.
  lemma LostAfterOneRound(m: Machine, h: HostId)
    requires Init(m) && m.row.desired
    ensures var n := After(m, h, LoseReport(h, 0), 4); NothingUnderWay(n) && !Recoverable(n)
  {
    var fourth := LoseReport(h, 0);
    assert After(m, h, fourth, 1) == Next(m, Load);
    assert After(m, h, fourth, 2) == Next(Next(m, Load), Act(Some(h), true));
    assert After(m, h, fourth, 3) == Started(m, h);
    assert After(m, h, fourth, 4) == Next(Started(m, h), fourth);
    ObservedMisleads(m, h);
    LostIsUp(m, h);
  }

  lemma LostIsUp(m: Machine, h: HostId)
    requires Init(m) && m.row.desired
    ensures var n := Next(Started(m, h), LoseReport(h, 0));
            n.loaded.None? && n.row.desired && Mine(n).record == Up && Mine(n).orders == []
  {
    var sent := Next(Next(m, Load), Act(Some(h), true));
    assert At(sent.links, h) == IDLE.(orders := [true]);
    assert At(Started(m, h).links, h) == Link([], Up, 1, [Running]);
  }

  // One lost report is enough: a fair run with nothing else amiss that never converges.
  lemma LostReportNeverConverges(m: Machine, h: HostId)
    requires Init(m) && m.row.desired
    ensures var run, labels := Circle(m, h, LoseReport(h, 0)), Circling(h, LoseReport(h, 0));
            && IsRun(run, labels) && run(0) == m && Fair(run, labels) && SteadyFrom(run, labels, 4)
            && !Converges(run, 0)
  {
    var run, labels := Circle(m, h, LoseReport(h, 0)), Circling(h, LoseReport(h, 0));
    CircleIsFair(m, h, LoseReport(h, 0));
    LostAfterOneRound(m, h);
    ConvergesExactlyWhen(run, labels, 4);
    if Converges(run, 0) { LaterConverges(run, 0, 4); }
  }

  lemma LaterConverges(run: Behaviour, n: nat, k: nat)
    requires n <= k && Converges(run, n)
    ensures Converges(run, k)
  {
    var i: nat :| n <= i && ConvergedFrom(run, i);
    var j := if i <= k then k else i;
    assert k <= j && ConvergedFrom(run, j);
  }
}
