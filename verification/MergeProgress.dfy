// Termination: every step of a run uses something up, so no run is endless,
// and a run can only stop early in the one way StuckShape describes.
module MergeProgress {
  import opened Budgets
  import opened Sums
  import opened MergeMachine
  import opened MergeInvariant
  import opened MergeOutput
  import opened MergeHistory

  // ---------- What is left to do ----------

  function StageOf(w: Worker): nat {
    match w
    case Idle => 1
    case Checking(_) => 17
    case Waiting(_, _) => 17
    case Holding(_) => 16
    case Marked(_, _) => 15
    case Failing(_) => 15
    case Exited => 0
  }

  function PhaseLeft(p: Phase): nat {
    match p
    case Flushing => 14
    case Appended(_) => 13
    case Freed(_) => 12
    case Receiving => 10
    case Releasing => 8
    case Draining => 7
    case Aborting => 6
    case Committing => 6
    case Clearing => 5
    case Indexing => 5
    case Unmarking => 4
    case Finished(_) => 0
  }

  ghost function Stages(workers: seq<Worker>): seq<int> {
    seq(|workers|, k requires 0 <= k < |workers| => StageOf(workers[k]))
  }

  ghost function WorkLeft(cfg: Config, s: State): int {
    17 * (cfg.Count() - s.sent) + Sum(Stages(s.workers)) + 12 * |s.queue| + 6 * |s.pending|
    + PhaseLeft(s.phase) + One(!s.callerDone)
  }

  // ---------- How often a worker can still be woken in vain ----------

  ghost function Unreleased(leases: seq<Hold>): seq<int> {
    seq(|leases|, i requires 0 <= i < |leases| => One(!leases[i].Released?))
  }

  ghost function ReleasesLeft(s: State): int {
    Sum(Unreleased(s.leases))
  }

  ghost function WaitOf(w: Worker, generation: nat, releases: int): int {
    match w
    case Checking(_) => 2 * releases + 2
    case Waiting(_, seen) => if seen == generation then 2 * releases + 1 else 2 * releases + 3
    case _ => 0
  }

  ghost function Waits(s: State): seq<int> {
    seq(|s.workers|, k requires 0 <= k < |s.workers| =>
      WaitOf(s.workers[k], s.budget.generation, ReleasesLeft(s)))
  }

  ghost function WaitBound(cfg: Config, s: State): int {
    |s.workers| * (2 * cfg.Count() + 3)
  }

  ghost function Rank(cfg: Config, s: State): int {
    WorkLeft(cfg, s) * (WaitBound(cfg, s) + 1) + Sum(Waits(s))
  }

  lemma ReleasesBounded(s: State)
    ensures 0 <= ReleasesLeft(s) <= |s.leases|
  {
    SumNonNegative(Unreleased(s.leases));
    SumBounded(Unreleased(s.leases), 1);
  }

  lemma WaitsBounded(cfg: Config, s: State)
    requires |s.leases| == cfg.Count()
    ensures 0 <= Sum(Waits(s)) <= WaitBound(cfg, s)
  {
    ReleasesBounded(s);
    SumNonNegative(Waits(s));
    SumBounded(Waits(s), 2 * cfg.Count() + 3);
  }

  lemma RankNonNegative(cfg: Config, s: State)
    requires ShapeInv(cfg, s)
    ensures Rank(cfg, s) >= 0
  {
    WaitsBounded(cfg, s);
    SumNonNegative(Stages(s.workers));
    ProductNonNegative(WorkLeft(cfg, s), WaitBound(cfg, s) + 1);
  }

  lemma ProductNonNegative(x: int, y: int)
    requires x >= 0 && y >= 0
    ensures x * y >= 0
  {
  }

  // ---------- Every step lowers the rank ----------

  predicate FailedCheck(s: State, t: State, a: Action) {
    a.Check? && a.worker < |s.workers| == |t.workers| && t.workers[a.worker].Waiting?
  }

  lemma StagesSet(workers: seq<Worker>, k: nat, w: Worker)
    requires k < |workers|
    ensures Sum(Stages(workers[k := w])) == Sum(Stages(workers)) - StageOf(workers[k]) + StageOf(w)
  {
    assert Stages(workers[k := w]) == Stages(workers)[k := StageOf(w)];
    SumUpdate(Stages(workers), k, StageOf(w));
  }

  // Worker k moved; jobs and messages follow it.
  ghost predicate WorkerMovedOn(s: State, t: State, k: nat) {
    && k < |s.workers| == |t.workers| && t.workers == s.workers[k := t.workers[k]]
    && t.pending == s.pending && t.phase == s.phase && t.callerDone == s.callerDone
    && t.start == s.start && t.budget.limit == s.budget.limit
  }

  ghost predicate StageMoves(s: State, t: State, a: Action)
    requires WorkerStep(a)
  {
    var k := a.worker;
    && WorkerMovedOn(s, t, k)
    && var gain := 17 * (t.sent - s.sent) - 12 * (|t.queue| - |s.queue|);
       if a.Wake? || FailedCheck(s, t, a) then StageOf(t.workers[k]) == StageOf(s.workers[k]) + gain
       else StageOf(t.workers[k]) < StageOf(s.workers[k]) + gain
  }

  lemma CheckEffect(cfg: Config, s: State, k: nat)
    requires Enabled(cfg, s, Check(k))
    ensures StageMoves(s, ApplyCheck(cfg, s, k), Check(k))
  {
  }

  lemma LoadEffect(cfg: Config, s: State, a: Action)
    requires Enabled(cfg, s, a) && (a.LoadOk? || a.LoadFail?)
    ensures StageMoves(s, Apply(cfg, s, a), a)
  {
  }

  lemma WorkerEffect(cfg: Config, s: State, a: Action)
    requires Enabled(cfg, s, a) && WorkerStep(a)
    ensures StageMoves(s, Apply(cfg, s, a), a)
  {
    match a
    case Check(k) => hide StageMoves; CheckEffect(cfg, s, k);
    case LoadOk(_) => hide StageMoves, Apply; LoadEffect(cfg, s, a);
    case LoadFail(_) => hide StageMoves, Apply; LoadEffect(cfg, s, a);
    case _ =>
  }

  lemma WorkerUsesWork(cfg: Config, s: State, a: Action)
    requires Enabled(cfg, s, a) && WorkerStep(a)
    ensures var t := Apply(cfg, s, a);
      && WorkerMovedOn(s, t, a.worker)
      && (if a.Wake? || FailedCheck(s, t, a) then WorkLeft(cfg, t) == WorkLeft(cfg, s)
          else WorkLeft(cfg, t) < WorkLeft(cfg, s))
  {
    var t := Apply(cfg, s, a);
    WorkerEffect(cfg, s, a);
    StagesSet(s.workers, a.worker, t.workers[a.worker]);
  }

  lemma ControlEffect(cfg: Config, s: State, a: Action)
    requires Enabled(cfg, s, a) && ControlStep(a)
    ensures var t := Apply(cfg, s, a);
      && OnlyControl(s, t)
      && PhaseLeft(t.phase) + One(!t.callerDone) < PhaseLeft(s.phase) + One(!s.callerDone)
  {
    ControlIsControl(cfg, s, a);
    hide ApplyCheck, ApplyLoadOk, ApplyReceive, ApplyAppend, ApplySave, DropPending, ApplyDrain, Release;
    hide OnlyControl, SetWorker, Job, AllExited;
  }

  lemma ControlUsesWork(cfg: Config, s: State, t: State)
    requires OnlyControl(s, t)
    requires PhaseLeft(t.phase) + One(!t.callerDone) < PhaseLeft(s.phase) + One(!s.callerDone)
    ensures WorkLeft(cfg, t) < WorkLeft(cfg, s)
  {
  }

  // The collector's step used up work and left the workers alone.
  ghost predicate UsesWork(cfg: Config, s: State, t: State) {
    && WorkLeft(cfg, t) < WorkLeft(cfg, s)
    && t.workers == s.workers && t.start == s.start && t.sent == s.sent && t.budget.limit == s.budget.limit
  }

  lemma AppendUsesWork(cfg: Config, s: State)
    requires Enabled(cfg, s, Append)
    ensures UsesWork(cfg, s, ApplyAppend(cfg, s))
  {
    ReleaseOnly(cfg, s, s.next);
    hide Release, Writers.Appended;
  }

  lemma FreeUsesWork(cfg: Config, s: State)
    requires Enabled(cfg, s, FreeLease)
    ensures UsesWork(cfg, s, Apply(cfg, s, FreeLease))
  {
    ReleaseOnly(cfg, s, s.next - 1);
    hide Release, ApplyCheck, ApplyLoadOk, ApplyReceive, ApplyAppend, ApplySave, DropPending, ApplyDrain;
    hide ApplyCommit, ApplyPutIndex;
  }

  lemma SaveUsesWork(cfg: Config, s: State)
    requires PhaseInv(cfg, s) && Enabled(cfg, s, Save)
    ensures UsesWork(cfg, s, ApplySave(cfg, s))
  {
    var t := ApplySave(cfg, s);
    if !s.callerDone {
      assert t.pending.Keys == s.pending.Keys - {s.next - 1};
    }
  }

  lemma FlushUsesWork(cfg: Config, s: State, a: Action)
    requires PhaseInv(cfg, s) && Enabled(cfg, s, a) && (a.Append? || a.FreeLease? || a.Save?)
    ensures UsesWork(cfg, s, Apply(cfg, s, a))
  {
    hide UsesWork, ApplyAppend, ApplySave, Release, PhaseInv;
    match a
    case Append => AppendUsesWork(cfg, s);
    case FreeLease => FreeUsesWork(cfg, s);
    case Save => SaveUsesWork(cfg, s);
  }

  lemma ReceiveUsesWork(cfg: Config, s: State)
    requires ShapeInv(cfg, s) && PlacesInv(cfg, s) && Enabled(cfg, s, Receive)
    ensures UsesWork(cfg, s, ApplyReceive(s))
  {
    HeadAlone(cfg, s);
  }

  lemma DropUsesWork(cfg: Config, s: State, i: nat)
    requires Enabled(cfg, s, ReleasePending(i))
    ensures UsesWork(cfg, s, DropPending(cfg, s, i))
  {
    ReleaseOnly(cfg, s, i);
    hide Release;
    assert DropPending(cfg, s, i).pending.Keys == s.pending.Keys - {i};
  }

  lemma DrainUsesWork(cfg: Config, s: State)
    requires Enabled(cfg, s, Drain)
    ensures UsesWork(cfg, s, ApplyDrain(cfg, s))
  {
    ReleaseOnly(cfg, s, s.queue[0].ordinal);
    hide Release;
  }

  lemma DiscardUsesWork(cfg: Config, s: State, a: Action)
    requires Enabled(cfg, s, a) && (a.ReleasePending? || a.Drain?)
    ensures UsesWork(cfg, s, Apply(cfg, s, a))
  {
    hide UsesWork, DropPending, ApplyDrain, Release;
    match a
    case ReleasePending(i) => DropUsesWork(cfg, s, i);
    case Drain => DrainUsesWork(cfg, s);
  }

  lemma ControlStepUsesWork(cfg: Config, s: State, a: Action)
    requires Enabled(cfg, s, a) && ControlStep(a)
    ensures UsesWork(cfg, s, Apply(cfg, s, a))
  {
    hide Apply, Enabled, WorkLeft, PhaseLeft;
    ControlEffect(cfg, s, a);
    ControlUsesWork(cfg, s, Apply(cfg, s, a));
  }

  lemma CollectorUsesWork(cfg: Config, s: State, a: Action)
    requires ShapeInv(cfg, s) && PlacesInv(cfg, s) && PhaseInv(cfg, s) && Enabled(cfg, s, a)
    requires !WorkerStep(a)
    ensures UsesWork(cfg, s, Apply(cfg, s, a))
  {
    hide UsesWork, Enabled, ShapeInv, PlacesInv, PhaseInv;
    if ControlStep(a) {
      ControlStepUsesWork(cfg, s, a);
    } else if a.Receive? {
      ReceiveUsesWork(cfg, s);
    } else if a.ReleasePending? || a.Drain? {
      DiscardUsesWork(cfg, s, a);
    } else {
      FlushUsesWork(cfg, s, a);
    }
  }

  // A vain wake-up uses up a place in the waiting order.
  lemma WaitStepUsesWaits(cfg: Config, s: State, a: Action)
    requires RunInv(cfg, s) && Enabled(cfg, s, a)
    requires a.Wake? || FailedCheck(s, Apply(cfg, s, a), a)
    ensures Sum(Waits(Apply(cfg, s, a))) < Sum(Waits(s))
  {
    hide ApplyReceive, ApplyAppend, ApplySave, DropPending, ApplyDrain, ApplyCommit;
    hide ApplyPutIndex, LeaseInv, PlacesInv, BudgetInv, PhaseInv, Unreleased;
    var t, k := Apply(cfg, s, a), a.worker;
    assert t.leases == s.leases && t.budget == s.budget;
    var releases := ReleasesLeft(s);
    assert Waits(t) == Waits(s)[k := WaitOf(t.workers[k], t.budget.generation, releases)];
    SumUpdate(Waits(s), k, WaitOf(t.workers[k], t.budget.generation, releases));
  }

  lemma StepLowersRank(cfg: Config, s: State, a: Action)
    requires RunInv(cfg, s) && Enabled(cfg, s, a)
    ensures 0 <= Rank(cfg, Apply(cfg, s, a)) < Rank(cfg, s)
  {
    hide PlacesInv, LeaseInv, BudgetInv, WakeInv, PhaseInv, Apply, Enabled;
    var t := Apply(cfg, s, a);
    RunKept(cfg, s, a);
    RankNonNegative(cfg, t);
    WaitsBounded(cfg, s);
    WaitsBounded(cfg, t);
    if a.Wake? || FailedCheck(s, t, a) {
      WorkerUsesWork(cfg, s, a);
      WaitStepUsesWaits(cfg, s, a);
    } else {
      if WorkerStep(a) {
        WorkerUsesWork(cfg, s, a);
      } else {
        CollectorUsesWork(cfg, s, a);
      }
      Lexicographic(WorkLeft(cfg, t), WorkLeft(cfg, s), WaitBound(cfg, s), Sum(Waits(t)), Sum(Waits(s)));
    }
  }

  lemma Lexicographic(x: int, y: int, bound: int, v: int, w: int)
    requires x < y && 0 <= v <= bound && 0 <= w
    ensures x * (bound + 1) + v < y * (bound + 1) + w
  {
    assert y * (bound + 1) >= (x + 1) * (bound + 1);
  }

  // No run is longer than its first state's rank.
  lemma {:induction false} RunsAreFinite(cfg: Config, run: seq<State>)
    requires ConfigOk(cfg) && IsRun(cfg, run) && RunInv(cfg, run[0]) && DiskInv(cfg, run[0])
    ensures |run| <= Rank(cfg, run[0]) + 1
    decreases |run|
  {
    if |run| > 1 {
      assert StepAt(cfg, run, 0);
      StepLowers(cfg, run[0], run[1]);
      var rest := run[1..];
      forall i | 0 <= i < |rest| - 1 ensures StepAt(cfg, rest, i) {
        assert StepAt(cfg, run, i + 1);
      }
      RunsAreFinite(cfg, rest);
    } else {
      RankNonNegative(cfg, run[0]);
    }
  }

  lemma StepLowers(cfg: Config, s: State, t: State)
    requires ConfigOk(cfg) && RunInv(cfg, s) && DiskInv(cfg, s) && Step(cfg, s, t)
    ensures RunInv(cfg, t) && DiskInv(cfg, t) && Rank(cfg, t) < Rank(cfg, s)
  {
    StepKeeps(cfg, s, t);
    var a :| Enabled(cfg, s, a) && t == Apply(cfg, s, a);
    StepLowersRank(cfg, s, a);
  }

  // ---------- Where a run can stop ----------

  // Merge has not returned, and only its caller could still do something.
  ghost predicate Stuck(cfg: Config, s: State) {
    !s.phase.Finished? && forall a :: Enabled(cfg, s, a) ==> a.CancelCaller?
  }

  // Asleep for good, unless somebody releases a lease.
  predicate Asleep(cfg: Config, s: State, k: nat) {
    && k < |s.workers| && s.workers[k].Waiting? && s.workers[k].job < cfg.Count()
    && s.workers[k].seen == s.budget.generation
    && !Fits(s.budget, cfg.Weight(s.workers[k].job))
  }

  lemma CommittedHasReceipt(cfg: Config, s: State)
    requires ConfigOk(cfg) && DiskInv(cfg, s) && PastCommit(s.phase)
    ensures cfg.FileID() in s.disk.writer.outputs
  {
  }

  predicate HandlesSegments(p: Phase) {
    p.Receiving? || p.Flushing? || p.Appended? || p.Freed? || p.Releasing? || p.Draining?
  }

  lemma OrdinalsInRange(cfg: Config, s: State)
    requires ShapeInv(cfg, s) && LeaseInv(cfg, s)
    ensures |s.leases| == cfg.Count() && forall i :: i in s.pending ==> i < cfg.Count()
    ensures s.queue != [] ==> s.queue[0].ordinal < cfg.Count()
  {
    forall i | i in s.pending ensures i < cfg.Count() {
      assert PendingLease(cfg, s, i);
    }
    assert s.queue != [] ==> MessageLease(cfg, s, s.queue[0]);
  }

  lemma CollectorMovesOnSegments(cfg: Config, s: State) returns (a: Action)
    requires PhaseInv(cfg, s) && HandlesSegments(s.phase)
    requires |s.leases| == cfg.Count() && forall i :: i in s.pending ==> i < cfg.Count()
    requires s.queue != [] ==> s.queue[0].ordinal < cfg.Count()
    requires s.phase.Appended? || s.phase.Freed? ==> s.next <= cfg.Count()
    requires s.phase.Receiving? || s.phase.Draining? ==> s.queue != [] || AllExited(s)
    ensures Enabled(cfg, s, a) && !a.CancelCaller?
  {
    match s.phase
    case Receiving =>
      a := if s.queue != [] then Receive else if s.next == cfg.Count() then Close else CloseIncomplete;
    case Flushing => a := if s.next in s.pending then Append else EndFlush;
    case Appended(_) => a := FreeLease;
    case Freed(_) => a := Save;
    case Releasing =>
      if i :| i in s.pending {
        a := ReleasePending(i);
      } else {
        a := EndRelease;
      }
    case Draining => a := if s.queue != [] then Drain else EndDrain;
  }

  // Unless it waits for results, the collector has a step of its own.
  lemma CollectorMoves(cfg: Config, s: State) returns (a: Action)
    requires ConfigOk(cfg) && RunInv(cfg, s) && DiskInv(cfg, s) && !s.phase.Finished?
    requires s.phase.Receiving? || s.phase.Draining? ==> s.queue != [] || AllExited(s)
    ensures Enabled(cfg, s, a) && !a.CancelCaller?
  {
    hide LeaseInv, PhaseInv, PlacesInv, BudgetInv, WakeInv, DiskInv;
    match s.phase
    case Aborting => a := AbortSession;
    case Clearing => a := ClearCheckpoint;
    case Committing => a := Commit;
    case Indexing =>
      CommittedHasReceipt(cfg, s);
      a := PutIndex;
    case Unmarking => a := ClearDone;
    case _ =>
      OrdinalsInRange(cfg, s);
      a := CollectorMovesOnSegments(cfg, s);
  }

  lemma CollectorStuckShape(cfg: Config, s: State)
    requires ConfigOk(cfg) && RunInv(cfg, s) && DiskInv(cfg, s) && Stuck(cfg, s)
    ensures (s.phase.Receiving? || s.phase.Draining?) && s.queue == [] && !AllExited(s)
  {
    if !((s.phase.Receiving? || s.phase.Draining?) && s.queue == [] && !AllExited(s)) {
      var a := CollectorMoves(cfg, s);
    }
  }

  lemma WorkerStuckShape(cfg: Config, s: State, k: nat)
    requires RunInv(cfg, s) && Stuck(cfg, s) && k < |s.workers|
    ensures s.workers[k].Exited? || (Asleep(cfg, s, k) && !s.workersDone)
  {
    assert WorkerLease(cfg, s, k);
    assert !Enabled(cfg, s, Dispatch(k)) && !Enabled(cfg, s, Exit(k)) && !Enabled(cfg, s, Check(k));
    assert !Enabled(cfg, s, Wake(k)) && !Enabled(cfg, s, GiveUp(k)) && !Enabled(cfg, s, LoadFail(k));
    assert !Enabled(cfg, s, Send(k));
  }

  // A stuck run waits for results that its sleeping workers cannot deliver.
  lemma StuckShape(cfg: Config, s: State)
    requires ConfigOk(cfg) && RunInv(cfg, s) && DiskInv(cfg, s) && Stuck(cfg, s)
    ensures s.phase.Receiving? && s.queue == [] && !s.workersDone && !AllExited(s)
    ensures forall k :: 0 <= k < |s.workers| ==> s.workers[k].Exited? || Asleep(cfg, s, k)
  {
    CollectorStuckShape(cfg, s);
    forall k | 0 <= k < |s.workers| ensures s.workers[k].Exited? || (Asleep(cfg, s, k) && !s.workersDone) {
      WorkerStuckShape(cfg, s, k);
    }
  }

  // After a cancellation, or any failure, a run always drains to its end.
  lemma CancelledRunsAlwaysMove(cfg: Config, s: State)
    requires ConfigOk(cfg) && Reachable(cfg, s) && s.workersDone && !s.phase.Finished?
    ensures exists a :: Enabled(cfg, s, a) && !a.CancelCaller?
  {
    ReachableInv(cfg, s);
    if Stuck(cfg, s) {
      StuckShape(cfg, s);
    }
  }
}
