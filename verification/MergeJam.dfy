// The other direction: whenever the condition of MergeDeadlock holds, some
// interleaving really gets stuck. The run is built step by step.
module MergeJam {
  import opened Prelude
  import opened Budgets
  import opened Sums
  import opened MergeMachine
  import opened MergeInvariant
  import opened MergeOutput
  import opened MergeHistory
  import opened MergeProgress
  import opened MergeDeadlock

  // Every weight fits the limit on its own, as admission guarantees.
  ghost predicate AllFit(cfg: Config, limit: int) {
    forall i :: 0 <= i < cfg.Count() ==> 1 <= cfg.Weight(i) <= limit
  }

  // A state of the run that starts at s0.
  ghost predicate On(cfg: Config, s0: State, s: State)
    requires ConfigOk(cfg)
  {
    RunInv(cfg, s0) && DiskInv(cfg, s0) && OrderInv(s0) && Reaches(cfg, s0, s)
  }

  lemma OnInv(cfg: Config, s0: State, s: State)
    requires ConfigOk(cfg) && On(cfg, s0, s)
    ensures RunInv(cfg, s) && DiskInv(cfg, s) && OrderInv(s)
    ensures |s.workers| == |s0.workers| && s.start == s0.start && s.budget.limit == s0.budget.limit
  {
    var run :| RunTo(cfg, run, s0, s);
    var keeps := (t: State) => RunInv(cfg, t) && DiskInv(cfg, t) && OrderInv(t)
      && |t.workers| == |s0.workers| && t.start == s0.start && t.budget.limit == s0.budget.limit;
    forall u, v | keeps(u) && Step(cfg, u, v) ensures keeps(v) {
      StepKeeps(cfg, u, v);
      StepKeepsOrder(cfg, u, v);
    }
    RunKeeps(cfg, run, keeps, |run| - 1);
  }

  lemma OnFixed(cfg: Config, s0: State, s: State)
    requires ConfigOk(cfg) && On(cfg, s0, s)
    ensures |s.workers| == |s0.workers| && s.start == s0.start && s.budget.limit == s0.budget.limit
  {
    OnInv(cfg, s0, s);
  }

  lemma StepKeepsOrder(cfg: Config, s: State, t: State)
    requires RunInv(cfg, s) && OrderInv(s) && Step(cfg, s, t)
    ensures OrderInv(t) && |t.workers| == |s.workers| && t.start == s.start && t.budget.limit == s.budget.limit
  {
    var a :| Enabled(cfg, s, a) && t == Apply(cfg, s, a);
    OrderKept(cfg, s, a);
    if WorkerStep(a) { WorkerEffect(cfg, s, a); } else { CollectorUsesWork(cfg, s, a); }
  }

  lemma OnStep(cfg: Config, s0: State, s: State, a: Action)
    requires ConfigOk(cfg) && On(cfg, s0, s) && Enabled(cfg, s, a)
    ensures On(cfg, s0, Apply(cfg, s, a))
  {
    ReachesStep(cfg, s0, s, a);
  }

  // ---------- One worker loads the next job from start to finish ----------

  function AfterLoad(cfg: Config, s: State): State
    requires s.sent < cfg.Count() == |s.leases| && cfg.Data(s.sent).Success?
  {
    var j, data := s.sent, cfg.Data(s.sent).value;
    s.(sent := j + 1, queue := s.queue + [Message.Loaded(j, data)], leases := s.leases[j := Held(|data|)],
       budget := Mark(Reserve(s.budget, cfg.Weight(j)), |data|))
  }

  lemma LoadNext(cfg: Config, s0: State, s: State, k: nat)
    requires ConfigOk(cfg) && On(cfg, s0, s)
    requires k < |s.workers| && s.workers[k].Idle? && s.sent < cfg.Count() == |s.leases|
    requires cfg.Data(s.sent).Success? && 1 <= cfg.Weight(s.sent) <= s.budget.limit
    requires Fits(s.budget, cfg.Weight(s.sent))
    ensures On(cfg, s0, AfterLoad(cfg, s))
  {
    hide ApplyReceive, ApplyAppend, ApplySave, DropPending, ApplyDrain, ApplyCommit, ApplyPutIndex, Release, RunInv;
    OnStep(cfg, s0, s, Dispatch(k));
    var s1 := Apply(cfg, s, Dispatch(k));
    OnStep(cfg, s0, s1, Check(k));
    var s2 := ApplyCheck(cfg, s1, k);
    assert s2.workers[k] == Holding(s.sent);
    OnStep(cfg, s0, s2, LoadOk(k));
    var s3 := ApplyLoadOk(cfg, s2, k);
    OnStep(cfg, s0, s3, Send(k));
    var s4 := Apply(cfg, s3, Send(k));
    assert s4.workers == s.workers && s4.leases == AfterLoad(cfg, s).leases;
    assert s4 == AfterLoad(cfg, s);
  }

  // ---------- Writing the ordinals before the one that will be shut out ----------

  // Everything below i is written and nothing is under way.
  ghost predicate Calm(cfg: Config, s: State, i: nat) {
    && !s.callerDone && !s.workersDone && s.phase.Receiving?
    && s.queue == [] && s.pending == map[] && s.next == i == s.sent && |s.leases| == cfg.Count()
    && (forall k :: 0 <= k < |s.workers| ==> s.workers[k].Idle?)
    && (forall x :: 0 <= x < |s.leases| ==> !s.leases[x].Held?)
  }

  lemma CalmBudget(cfg: Config, s0: State, s: State, i: nat)
    requires ConfigOk(cfg) && On(cfg, s0, s) && Calm(cfg, s, i)
    ensures s.budget.reserved == 0
  {
    OnInv(cfg, s0, s);
    SumZeros(ReservedMarks(cfg, s.leases));
  }

  // The collector takes the only message and finds it is the next one.
  lemma TakeNext(cfg: Config, s0: State, s: State, data: bytes) returns (t: State)
    requires ConfigOk(cfg) && On(cfg, s0, s) && s.next < cfg.Count() == |s.leases|
    requires !s.callerDone && s.phase.Receiving? && s.pending == map[] && s.queue == [Message.Loaded(s.next, data)]
    ensures On(cfg, s0, t) && t.phase.Appended?
    ensures t == s.(queue := [], pending := map[s.next := data], next := s.next + 1,
                    phase := t.phase, received := t.received, disk := t.disk)
  {
    hide RunInv, DiskInv, Published;
    OnStep(cfg, s0, s, Receive);
    var s1 := ApplyReceive(s);
    assert s1.pending == map[s.next := data];
    OnInv(cfg, s0, s1);
    AppendKeepsDisk(cfg, s1);
    OnStep(cfg, s0, s1, Append);
    t := ApplyAppend(cfg, s1);
  }

  // It gives the lease back, saves the checkpoint and goes back to receiving.
  lemma FinishNext(cfg: Config, s0: State, s: State) returns (t: State)
    requires ConfigOk(cfg) && On(cfg, s0, s) && 0 < s.next <= cfg.Count() == |s.leases|
    requires !s.callerDone && s.phase.Appended? && s.pending.Keys == {s.next - 1}
    ensures On(cfg, s0, t)
    ensures t.phase.Receiving? && t.pending == map[] && t.next == s.next && t.queue == s.queue
    ensures t.sent == s.sent && t.workers == s.workers && !t.callerDone && t.workersDone == s.workersDone
    ensures |t.leases| == |s.leases| && !t.leases[s.next - 1].Held?
    ensures forall x :: 0 <= x < |s.leases| && x != s.next - 1 ==> t.leases[x] == s.leases[x]
  {
    hide On;
    OnStep(cfg, s0, s, FreeLease);
    var s1 := Apply(cfg, s, FreeLease);
    OnStep(cfg, s0, s1, Save);
    var s2 := ApplySave(cfg, s1);
    assert s2.pending.Keys == {};
    OnStep(cfg, s0, s2, EndFlush);
    t := Apply(cfg, s2, EndFlush);
  }

  lemma CalmNext(cfg: Config, s0: State, s: State, i: nat) returns (t: State)
    requires ConfigOk(cfg) && AllLoad(cfg) && On(cfg, s0, s) && Calm(cfg, s, i)
    requires i < cfg.Count() && |s.workers| > 0 && AllFit(cfg, s.budget.limit)
    ensures On(cfg, s0, t) && Calm(cfg, t, i + 1)
  {
    CalmBudget(cfg, s0, s, i);
    LoadNext(cfg, s0, s, 0);
    var taken := TakeNext(cfg, s0, AfterLoad(cfg, s), cfg.Data(i).value);
    t := FinishNext(cfg, s0, taken);
  }

  lemma {:induction false} CalmAt(cfg: Config, s0: State, i: nat) returns (t: State)
    requires ConfigOk(cfg) && AllLoad(cfg) && On(cfg, s0, s0) && Calm(cfg, s0, s0.start)
    requires s0.start <= i <= cfg.Count() && |s0.workers| > 0 && AllFit(cfg, s0.budget.limit)
    ensures On(cfg, s0, t) && Calm(cfg, t, i)
  {
    if i == s0.start {
      t := s0;
    } else {
      var s := CalmAt(cfg, s0, i - 1);
      OnFixed(cfg, s0, s);
      t := CalmNext(cfg, s0, s, i - 1);
    }
  }

  // ---------- Overtaking it ----------

  // Worker 0 holds i back, one more worker each skipped ordinal; the parked
  // ordinals up to j are loaded and wait in `pending`.
  ghost predicate Parking(cfg: Config, s: State, i: nat, j: nat, parked: set<nat>) {
    && !s.callerDone && !s.workersDone && s.phase.Receiving?
    && s.queue == [] && s.next == i && s.sent == j && |s.leases| == cfg.Count()
    && s.pending.Keys == (set x | x in parked && x < j)
    && |s.workers| > 0 && s.workers[0] == Checking(i)
    && (forall k :: 0 <= k < |s.workers| ==>
          if k <= Skipped(i, j, parked) then s.workers[k].Checking? else s.workers[k].Idle?)
    && (forall x :: 0 <= x < |s.leases| ==> (s.leases[x].Held? <==> x in parked && x < j))
  }

  lemma HoldBack(cfg: Config, s0: State, s: State, i: nat, parked: set<nat>)
    requires ConfigOk(cfg) && On(cfg, s0, s) && Calm(cfg, s, i) && i < cfg.Count() && |s.workers| > 0
    requires forall j :: j in parked ==> i < j
    ensures var t := Apply(cfg, s, Dispatch(0)); On(cfg, s0, t) && Parking(cfg, t, i, i + 1, parked)
  {
    OnStep(cfg, s0, s, Dispatch(0));
    assert Apply(cfg, s, Dispatch(0)).pending.Keys == (set x | x in parked && x < i + 1);
  }

  lemma ParkedBudget(cfg: Config, s0: State, s: State, i: nat, j: nat, parked: set<nat>)
    requires ConfigOk(cfg) && On(cfg, s0, s) && Parking(cfg, s, i, j, parked)
    ensures (forall x :: x in parked ==> x < j) ==> s.budget.reserved == ParkedBytes(cfg, parked)
    ensures j < cfg.Count() && j in parked && AllFit(cfg, s.budget.limit) ==>
      s.budget.reserved + cfg.Weight(j) <= ParkedBytes(cfg, parked)
  {
    OnInv(cfg, s0, s);
    var marks := ReservedMarks(cfg, s.leases);
    if forall x :: x in parked ==> x < j {
      assert marks == ParkedMarks(cfg, parked);
    }
    if j < cfg.Count() && j in parked && AllFit(cfg, s.budget.limit) {
      SumUpdate(marks, j, cfg.Weight(j));
      SumOrdered(marks[j := cfg.Weight(j)], ParkedMarks(cfg, parked));
    }
  }

  // A message out of turn goes to `pending`.
  lemma SetAside(cfg: Config, s0: State, s: State, j: nat, data: bytes) returns (t: State)
    requires ConfigOk(cfg) && On(cfg, s0, s) && s.phase.Receiving? && s.queue == [Message.Loaded(j, data)]
    requires j != s.next && s.next !in s.pending
    ensures On(cfg, s0, t)
    ensures t == s.(queue := [], pending := s.pending[j := data], received := t.received)
  {
    OnStep(cfg, s0, s, Receive);
    var s1 := ApplyReceive(s);
    OnStep(cfg, s0, s1, EndFlush);
    t := Apply(cfg, s1, EndFlush);
  }

  lemma ParkNext(cfg: Config, s0: State, s: State, i: nat, j: nat, parked: set<nat>) returns (t: State)
    requires ConfigOk(cfg) && AllLoad(cfg) && On(cfg, s0, s) && Parking(cfg, s, i, j, parked)
    requires i < j < cfg.Count() && j in parked && i !in parked && AllFit(cfg, s.budget.limit)
    requires Skipped(i, j, parked) + 2 <= |s.workers| && ParkedBytes(cfg, parked) <= s.budget.limit
    ensures On(cfg, s0, t) && Parking(cfg, t, i, j + 1, parked)
  {
    hide On, ConfigOk, ParkedBytes;
    ParkedBudget(cfg, s0, s, i, j, parked);
    LoadNext(cfg, s0, s, |s.workers| - 1);
    assert i !in s.pending.Keys;
    t := SetAside(cfg, s0, AfterLoad(cfg, s), j, cfg.Data(j).value);
    assert t.pending.Keys == s.pending.Keys + {j};
    assert t.pending.Keys == (set x | x in parked && x < j + 1);
  }

  lemma SkipNext(cfg: Config, s0: State, s: State, i: nat, j: nat, parked: set<nat>) returns (t: State)
    requires ConfigOk(cfg) && On(cfg, s0, s) && Parking(cfg, s, i, j, parked)
    requires i < j < cfg.Count() && j !in parked
    requires Skipped(i, j, parked) + 2 <= |s.workers|
    ensures On(cfg, s0, t) && Parking(cfg, t, i, j + 1, parked)
  {
    var k := Skipped(i, j, parked) + 1;
    OnStep(cfg, s0, s, Dispatch(k));
    t := Apply(cfg, s, Dispatch(k));
    assert t.pending.Keys == (set x | x in parked && x < j + 1);
  }

  lemma {:induction false} SkippedGrows(i: nat, j: nat, m: nat, parked: set<nat>)
    requires j <= m
    ensures Skipped(i, j, parked) <= Skipped(i, m, parked)
  {
    if j == m {
    } else {
      SkippedGrows(i, j, m - 1, parked);
    }
  }

  lemma {:induction false} ParkUpTo(cfg: Config, s0: State, s: State, i: nat, j: nat, m: nat, parked: set<nat>)
    returns (t: State)
    requires ConfigOk(cfg) && AllLoad(cfg) && On(cfg, s0, s) && Parking(cfg, s, i, i + 1, parked)
    requires AllFit(cfg, s0.budget.limit)
    requires BlockedAt(cfg, s0.start, |s0.workers|, s0.budget.limit, i, m, parked) && i < j <= m
    ensures On(cfg, s0, t) && Parking(cfg, t, i, j, parked)
  {
    hide On, Parking, AllLoad, ConfigOk;
    if j == i + 1 {
      t := s;
    } else {
      var u := ParkUpTo(cfg, s0, s, i, j - 1, m, parked);
      OnFixed(cfg, s0, u);
      SkippedGrows(i, j - 1, m, parked);
      if j - 1 in parked {
        t := ParkNext(cfg, s0, u, i, j - 1, parked);
      } else {
        t := SkipNext(cfg, s0, u, i, j - 1, parked);
      }
    }
  }

  // ---------- From there on nothing can free a byte ----------

  // Ordinal i waits for room that only its own completion could make.
  ghost predicate Doomed(cfg: Config, s: State, i: nat) {
    && !s.workersDone && (s.phase.Receiving? || s.phase.Flushing?)
    && s.next == i < cfg.Count() && |s.workers| > 0
    && (s.workers[0] == Checking(i) || (s.workers[0].Waiting? && s.workers[0].job == i))
    && s.budget.reserved + cfg.Weight(i) > s.budget.limit
    && (forall k :: 0 <= k < |s.workers| ==> !s.workers[k].Failing?)
    && (forall k :: 0 <= k < |s.queue| ==> s.queue[k].Loaded?)
  }

  // The steps of a run in which no load fails and nobody cancels.
  predicate Smooth(a: Action) {
    || a.Dispatch? || a.Exit? || a.Check? || a.Wake? || a.LoadOk? || a.Send? || a.Receive? || a.EndFlush?
  }

  lemma DoomedWorkerKept(cfg: Config, s: State, a: Action, i: nat)
    requires RunInv(cfg, s) && Doomed(cfg, s, i) && AllFit(cfg, s.budget.limit)
    requires Enabled(cfg, s, a) && Smooth(a) && WorkerStep(a)
    ensures Doomed(cfg, Apply(cfg, s, a), i)
  {
    hide PlacesInv, BudgetInv, WakeInv, PhaseInv, ApplyReceive;
    hide ApplyAppend, ApplySave, DropPending, ApplyDrain, ApplyCommit, ApplyPutIndex;
    if a.worker != 0 {
      assert WorkerLease(cfg, s, a.worker);
    }
  }

  lemma DoomedKept(cfg: Config, s: State, a: Action, i: nat)
    requires RunInv(cfg, s) && Doomed(cfg, s, i) && AllFit(cfg, s.budget.limit)
    requires Enabled(cfg, s, a) && Smooth(a)
    ensures Doomed(cfg, Apply(cfg, s, a), i)
  {
    if WorkerStep(a) {
      DoomedWorkerKept(cfg, s, a, i);
    }
  }

  lemma DoomedOnlySmooth(cfg: Config, s: State, a: Action, i: nat)
    requires RunInv(cfg, s) && Doomed(cfg, s, i) && Enabled(cfg, s, a) && !a.CancelCaller?
    ensures Smooth(a) || a.LoadFail?
  {
    WorkerAlone(cfg, s, 0, i);
  }

  lemma DoomedStops(cfg: Config, s: State, i: nat)
    requires RunInv(cfg, s) && Doomed(cfg, s, i) && AllLoad(cfg)
    requires forall a :: Smooth(a) ==> !Enabled(cfg, s, a)
    ensures Stuck(cfg, s)
  {
    forall a | Enabled(cfg, s, a) ensures a.CancelCaller? {
      if !a.CancelCaller? {
        DoomedOnlySmooth(cfg, s, a, i);
        assert Enabled(cfg, s, LoadOk(a.worker));
      }
    }
  }

  lemma {:induction false} DriveToStuck(cfg: Config, s0: State, s: State, i: nat) returns (t: State)
    requires ConfigOk(cfg) && AllLoad(cfg) && On(cfg, s0, s) && Doomed(cfg, s, i)
    requires AllFit(cfg, s.budget.limit)
    requires Rank(cfg, s) >= 0
    ensures Reaches(cfg, s0, t) && Stuck(cfg, t)
    decreases Rank(cfg, s)
  {
    OnInv(cfg, s0, s);
    if a :| Smooth(a) && Enabled(cfg, s, a) {
      DoomedKept(cfg, s, a, i);
      StepLowersRank(cfg, s, a);
      OnStep(cfg, s0, s, a);
      OnFixed(cfg, s0, Apply(cfg, s, a));
      t := DriveToStuck(cfg, s0, Apply(cfg, s, a), i);
    } else {
      DoomedStops(cfg, s, i);
      t := s;
    }
  }

  // ---------- The result ----------

  lemma FreshRunIsCalm(cfg: Config, disk: Disk, concurrency: int, limit: int)
    requires ConfigOk(cfg) && Resumable(cfg, disk)
    ensures Start(cfg, disk, concurrency, limit).Some?
    ensures var s0 := Start(cfg, disk, concurrency, limit).value;
      On(cfg, s0, s0) && Calm(cfg, s0, s0.start)
  {
    StartDisk(cfg, disk, concurrency, limit);
    ReachesSelf(cfg, Start(cfg, disk, concurrency, limit).value);
  }

  lemma BlockableGetsStuck(cfg: Config, s0: State) returns (t: State)
    requires ConfigOk(cfg) && AllLoad(cfg) && AllFit(cfg, s0.budget.limit)
    requires On(cfg, s0, s0) && Calm(cfg, s0, s0.start)
    requires Blockable(cfg, s0.start, |s0.workers|, s0.budget.limit)
    ensures Reaches(cfg, s0, t) && Stuck(cfg, t)
  {
    var i: nat, m: nat, parked: set<nat> :|
      BlockedAt(cfg, s0.start, |s0.workers|, s0.budget.limit, i, m, parked);
    var calm := CalmAt(cfg, s0, i);
    OnFixed(cfg, s0, calm);
    HoldBack(cfg, s0, calm, i, parked);
    var full := ParkUpTo(cfg, s0, Apply(cfg, calm, Dispatch(0)), i, m, m, parked);
    OnFixed(cfg, s0, full);
    FullIsDoomed(cfg, s0, full, i, m, parked);
    t := DriveToStuck(cfg, s0, full, i);
  }

  lemma FullIsDoomed(cfg: Config, s0: State, s: State, i: nat, m: nat, parked: set<nat>)
    requires ConfigOk(cfg) && On(cfg, s0, s) && Parking(cfg, s, i, m, parked) && i < cfg.Count()
    requires forall j :: j in parked ==> j < m
    requires ParkedBytes(cfg, parked) + cfg.Weight(i) > s.budget.limit
    ensures Doomed(cfg, s, i) && Rank(cfg, s) >= 0
  {
    ParkedBudget(cfg, s0, s, i, m, parked);
    OnInv(cfg, s0, s);
    RankNonNegative(cfg, s);
  }

  // With every segment loadable and no segment larger than the limit, some
  // interleaving of a run never returns exactly when the run is blockable.
  lemma StuckIffBlockable(cfg: Config, disk: Disk, concurrency: int, limit: int)
    requires ConfigOk(cfg) && Resumable(cfg, disk) && AllLoad(cfg) && AllFit(cfg, Clamp(limit))
    ensures Start(cfg, disk, concurrency, limit).Some?
    ensures var s0 := Start(cfg, disk, concurrency, limit).value;
      (exists t :: Reaches(cfg, s0, t) && Stuck(cfg, t))
        <==> Blockable(cfg, s0.start, |s0.workers|, s0.budget.limit)
  {
    FreshRunIsCalm(cfg, disk, concurrency, limit);
    var s0 := Start(cfg, disk, concurrency, limit).value;
    if Blockable(cfg, s0.start, |s0.workers|, s0.budget.limit) {
      var t := BlockableGetsStuck(cfg, s0);
    }
    if t :| Reaches(cfg, s0, t) && Stuck(cfg, t) {
      NeverStuckUnlessBlockable(cfg, s0, t);
    }
  }

  lemma NeverStuckUnlessBlockable(cfg: Config, s0: State, t: State)
    requires ConfigOk(cfg) && On(cfg, s0, t) && Stuck(cfg, t)
    ensures Blockable(cfg, s0.start, |s0.workers|, s0.budget.limit)
  {
    OnInv(cfg, s0, t);
    StuckIsJam(cfg, t);
    JamIsBlockable(cfg, t);
  }
}
