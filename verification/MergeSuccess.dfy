// Runs in which every load succeeds and nobody cancels: they end in success,
// and dropping one at the wrong moment strands its file.
module MergeSuccess {
  import opened Writers
  import opened Loading
  import opened MergeMachine
  import opened MergeInvariant
  import opened MergeOutput
  import opened MergeHistory
  import opened MergeProgress
  import opened MergeDeadlock
  import opened MergeJam
  import opened TinyMerge

  predicate Undisturbed(a: Action) {
    !a.LoadFail? && !a.CancelCaller?
  }

  ghost predicate CleanStep(cfg: Config, s: State, t: State) {
    exists a :: Undisturbed(a) && Enabled(cfg, s, a) && t == Apply(cfg, s, a)
  }

  predicate Ahead(p: Phase) {
    || p.Receiving? || p.Flushing? || p.Appended? || p.Freed? || p.Committing? || p.Indexing? || p.Unmarking?
    || p == Finished(End.Success)
  }

  // Nothing has gone wrong; and between two segments the last one written is checkpointed.
  ghost predicate Clean(cfg: Config, s: State) {
    && !s.callerDone && !s.workersDone && Ahead(s.phase)
    && (forall k :: 0 <= k < |s.workers| ==> !s.workers[k].Failing?)
    && (forall k :: 0 <= k < |s.queue| ==> s.queue[k].Loaded?)
    && (s.next > s.start && !s.phase.Appended? && !s.phase.Freed? && !s.phase.Finished? ==>
          cfg.FileID() in s.disk.checkpoints)
  }

  lemma WorkerKeepsClean(cfg: Config, s: State, a: Action)
    requires RunInv(cfg, s) && Clean(cfg, s) && AllFit(cfg, s.budget.limit)
    requires Enabled(cfg, s, a) && Undisturbed(a) && WorkerStep(a)
    ensures Clean(cfg, Apply(cfg, s, a))
  {
    hide LeaseInv, PlacesInv, BudgetInv, WakeInv, PhaseInv;
    hide ApplyReceive, ApplyAppend, ApplySave, DropPending, ApplyDrain, ApplyCommit, ApplyPutIndex;
  }

  // The receipt of a committed merge is valid.
  lemma CommittedReceiptOk(cfg: Config, s: State)
    requires ConfigOk(cfg) && DiskInv(cfg, s) && s.phase.Indexing?
    ensures cfg.FileID() in s.disk.writer.outputs && ReceiptOk(s.disk.writer.outputs[cfg.FileID()])
  {
    assert Published(cfg, s.disk);
  }

  lemma AppendKeepsClean(cfg: Config, s: State)
    requires ConfigOk(cfg) && RunInv(cfg, s) && DiskInv(cfg, s) && Clean(cfg, s) && Enabled(cfg, s, Append)
    ensures Clean(cfg, ApplyAppend(cfg, s))
  {
    AppendKeepsDisk(cfg, s);
    hide RunInv, DiskInv, ConfigOk;
  }

  lemma FlushKeepsClean(cfg: Config, s: State, a: Action)
    requires Clean(cfg, s) && Enabled(cfg, s, a) && (a.FreeLease? || a.Save? || a.EndFlush? || a.Receive?)
    ensures Clean(cfg, Apply(cfg, s, a))
  {
    hide ApplyCheck, ApplyLoadOk, ApplyAppend, DropPending, ApplyDrain, ApplyCommit, ApplyPutIndex;
  }

  lemma CollectorKeepsClean(cfg: Config, s: State, a: Action)
    requires ConfigOk(cfg) && RunInv(cfg, s) && DiskInv(cfg, s) && Clean(cfg, s)
    requires Enabled(cfg, s, a) && Undisturbed(a) && !WorkerStep(a)
    ensures Clean(cfg, Apply(cfg, s, a))
  {
    match a
    case Append => AppendKeepsClean(cfg, s);
    case FreeLease => FlushKeepsClean(cfg, s, a);
    case Save => FlushKeepsClean(cfg, s, a);
    case EndFlush => FlushKeepsClean(cfg, s, a);
    case Receive => FlushKeepsClean(cfg, s, a);
    case _ => TailKeepsClean(cfg, s, a);
  }

  lemma TailKeepsClean(cfg: Config, s: State, a: Action)
    requires ConfigOk(cfg) && RunInv(cfg, s) && DiskInv(cfg, s) && Clean(cfg, s)
    requires Enabled(cfg, s, a) && Undisturbed(a) && !WorkerStep(a)
    requires !a.Append? && !a.FreeLease? && !a.Save? && !a.EndFlush? && !a.Receive?
    ensures Clean(cfg, Apply(cfg, s, a))
  {
    if a.CloseIncomplete? {
      ClosedMeansReceived(cfg, s);
    } else if a.PutIndex? {
      CommittedReceiptOk(cfg, s);
    }
    hide ShapeInv, LeaseInv, PlacesInv, BudgetInv, WakeInv, PhaseInv, Published, DraftOk, CheckpointOk;
    hide ApplyCheck, ApplyLoadOk, ApplyReceive, ApplyAppend, ApplySave, DropPending, ApplyDrain, Release, ReceiptOk;
  }

  lemma CleanKept(cfg: Config, s: State, a: Action)
    requires ConfigOk(cfg) && RunInv(cfg, s) && DiskInv(cfg, s) && Clean(cfg, s) && AllFit(cfg, s.budget.limit)
    requires Enabled(cfg, s, a) && Undisturbed(a)
    ensures Clean(cfg, Apply(cfg, s, a))
  {
    if WorkerStep(a) {
      WorkerKeepsClean(cfg, s, a);
    } else {
      CollectorKeepsClean(cfg, s, a);
    }
  }

  // ---------- Clean runs ----------

  ghost predicate CleanStepAt(cfg: Config, run: seq<State>, k: nat)
    requires k + 1 < |run|
  {
    CleanStep(cfg, run[k], run[k + 1])
  }

  // A run in which no load fails and the caller never cancels.
  ghost predicate IsCleanRun(cfg: Config, run: seq<State>) {
    run != [] && forall k :: 0 <= k < |run| - 1 ==> CleanStepAt(cfg, run, k)
  }

  ghost predicate CleanInv(cfg: Config, s0: State, s: State)
    requires ConfigOk(cfg)
  {
    On(cfg, s0, s) && Clean(cfg, s)
  }

  lemma FreshIsClean(cfg: Config, disk: Disk, concurrency: int, limit: int)
    requires ConfigOk(cfg) && Resumable(cfg, disk)
    ensures Start(cfg, disk, concurrency, limit).Some?
    ensures var s0 := Start(cfg, disk, concurrency, limit).value; CleanInv(cfg, s0, s0)
  {
    FreshRunIsCalm(cfg, disk, concurrency, limit);
  }

  lemma CleanStepKeeps(cfg: Config, s0: State, s: State, t: State)
    requires ConfigOk(cfg) && CleanInv(cfg, s0, s) && AllFit(cfg, s0.budget.limit) && CleanStep(cfg, s, t)
    ensures CleanInv(cfg, s0, t)
  {
    var a :| Undisturbed(a) && Enabled(cfg, s, a) && t == Apply(cfg, s, a);
    hide Apply, Enabled, Clean, RunInv, DiskInv;
    OnInv(cfg, s0, s);
    CleanKept(cfg, s, a);
    OnStep(cfg, s0, s, a);
  }

  lemma {:induction false} CleanRunInv(cfg: Config, s0: State, run: seq<State>, i: nat)
    requires ConfigOk(cfg) && IsCleanRun(cfg, run) && run[0] == s0 && CleanInv(cfg, s0, s0)
    requires AllFit(cfg, s0.budget.limit) && i < |run|
    ensures CleanInv(cfg, s0, run[i])
  {
    if i == 0 {
    } else {
      CleanRunInv(cfg, s0, run, i - 1);
      assert CleanStepAt(cfg, run, i - 1);
      CleanStepKeeps(cfg, s0, run[i - 1], run[i]);
    }
  }

  // If the run cannot be blocked and every segment loads, there is always a next clean step.
  lemma CleanRunsMove(cfg: Config, s0: State, s: State) returns (a: Action)
    requires ConfigOk(cfg) && AllLoad(cfg) && CleanInv(cfg, s0, s) && !s.phase.Finished?
    requires !Blockable(cfg, s0.start, |s0.workers|, s0.budget.limit)
    ensures Undisturbed(a) && Enabled(cfg, s, a)
  {
    if Stuck(cfg, s) {
      NeverStuckUnlessBlockable(cfg, s0, s);
    }
    a :| Enabled(cfg, s, a) && !a.CancelCaller?;
    if a.LoadFail? {
      a := LoadOk(a.worker);
    }
  }

  // With loads that succeed, segments that fit and no way to be blocked, every
  // clean run that cannot go on has ended in success; with RunsAreFinite, every
  // clean run gets there.
  lemma UndisturbedRunsSucceed(cfg: Config, disk: Disk, concurrency: int, limit: int, run: seq<State>)
    requires ConfigOk(cfg) && Resumable(cfg, disk) && AllLoad(cfg) && AllFit(cfg, Clamp(limit))
    requires Start(cfg, disk, concurrency, limit).Some?
    requires IsCleanRun(cfg, run) && run[0] == Start(cfg, disk, concurrency, limit).value
    requires !Blockable(cfg, run[0].start, |run[0].workers|, run[0].budget.limit)
    ensures var last := run[|run| - 1];
      if last.phase.Finished? then last.phase == Finished(End.Success)
      else exists t :: CleanStep(cfg, last, t)
  {
    var s0, last := run[0], run[|run| - 1];
    FreshIsClean(cfg, disk, concurrency, limit);
    CleanRunInv(cfg, s0, run, |run| - 1);
    if !last.phase.Finished? {
      var a := CleanRunsMove(cfg, s0, last);
      assert CleanStep(cfg, last, Apply(cfg, last, a));
    }
  }

  // ---------- The moment between Commit and the index ----------

  lemma {:induction false} ReachesIndexing(cfg: Config, s0: State, s: State) returns (t: State)
    requires ConfigOk(cfg) && AllLoad(cfg) && CleanInv(cfg, s0, s) && !PastCommit(s.phase)
    requires AllFit(cfg, s0.budget.limit) && !Blockable(cfg, s0.start, |s0.workers|, s0.budget.limit)
    ensures CleanInv(cfg, s0, t) && t.phase.Indexing?
    decreases Rank(cfg, s)
  {
    OnInv(cfg, s0, s);
    RankNonNegative(cfg, s);
    var a := CleanRunsMove(cfg, s0, s);
    StepLowersRank(cfg, s, a);
    var next := Apply(cfg, s, a);
    assert CleanStep(cfg, s, next);
    CleanStepKeeps(cfg, s0, s, next);
    if next.phase.Indexing? {
      t := next;
    } else {
      NotPastCommitYet(cfg, s, a);
      t := ReachesIndexing(cfg, s0, next);
    }
  }

  // The way past the commit leads through Indexing.
  lemma NotPastCommitYet(cfg: Config, s: State, a: Action)
    requires Clean(cfg, s) && !PastCommit(s.phase) && Enabled(cfg, s, a)
    ensures Apply(cfg, s, a).phase.Indexing? || !PastCommit(Apply(cfg, s, a).phase)
  {
    hide RunInv;
  }

  // A committed merge of at least one segment that is dropped before its
  // checkpoint is removed leaves that checkpoint without a draft.
  lemma DroppedAfterCommit(cfg: Config, s0: State, s: State)
    requires ConfigOk(cfg) && CleanInv(cfg, s0, s) && s.phase.Indexing? && s0.start < cfg.Count()
    ensures Stranded(cfg, s.disk)
  {
    OnInv(cfg, s0, s);
  }

  // From a disk without a checkpoint every such merge can be dropped so that no
  // later merge of the file version ever starts.
  lemma MergesCanBeStranded(cfg: Config, disk: Disk, concurrency: int, limit: int)
    returns (h: seq<World>, left: Disk)
    requires ConfigOk(cfg) && AllLoad(cfg) && cfg.Count() > 0 && AllFit(cfg, Clamp(limit))
    requires NamesIssued(disk.writer) && cfg.FileID() !in disk.checkpoints
    requires Start(cfg, disk, concurrency, limit).Some?
    requires var s0 := Start(cfg, disk, concurrency, limit).value;
      !Blockable(cfg, s0.start, |s0.workers|, s0.budget.limit)
    ensures IsHistory(cfg, h) && h[0] == Between(disk) && h[|h| - 1] == Between(left)
    ensures Stranded(cfg, left) && Published(cfg, left)
    ensures forall again: int, bound: int :: Start(cfg, left, again, bound).None?
  {
    var s0 := Start(cfg, disk, concurrency, limit).value;
    FreshIsClean(cfg, disk, concurrency, limit);
    var t := ReachesIndexing(cfg, s0, s0);
    OnInv(cfg, s0, t);
    DroppedAfterCommit(cfg, s0, t);
    left := t.disk;
    h := HistoryOf(cfg, disk, concurrency, limit, t);
    forall again: int, bound: int ensures Start(cfg, t.disk, again, bound).None? {
      StrandedNeverStarts(cfg, t.disk, again, bound);
    }
  }

  // A run from this disk, dropped at t.
  lemma HistoryOf(cfg: Config, disk: Disk, concurrency: int, limit: int, t: State) returns (h: seq<World>)
    requires ConfigOk(cfg) && NamesIssued(disk.writer) && cfg.FileID() !in disk.checkpoints
    requires Start(cfg, disk, concurrency, limit).Some?
    requires Reaches(cfg, Start(cfg, disk, concurrency, limit).value, t)
    ensures IsHistory(cfg, h) && h[0] == Between(disk) && h[|h| - 1] == Between(t.disk)
  {
    hide Start, Apply, Enabled;
    var s0 := Start(cfg, disk, concurrency, limit).value;
    var run :| RunTo(cfg, run, s0, t);
    h := [Between(disk)] + seq(|run|, k requires 0 <= k < |run| => Within(run[k])) + [Between(t.disk)];
    forall k | 0 <= k < |h| - 1 ensures WorldStepAt(cfg, h, k) {
      if k == 0 {
        assert Launches(cfg, disk, s0);
      } else if k < |run| {
        assert StepAt(cfg, run, k - 1);
      }
    }
  }

  // For instance three one-byte segments, one worker and memory for all.
  lemma AStrandedFileExists(env: Env) returns (h: seq<World>, left: Disk)
    requires DigestsAreHex(env)
    ensures ConfigOk(TinyConfig(env)) && IsHistory(TinyConfig(env), h)
    ensures h[0] == Between(EMPTY_DISK) && h[|h| - 1] == Between(left)
    ensures Stranded(TinyConfig(env), left) && Published(TinyConfig(env), left)
  {
    var cfg := TinyConfig(env);
    TinyConfigOk(env);
    hide TinyConfig, ConfigOk, AllLoad;
    TinyStarts(cfg);
    h, left := MergesCanBeStranded(cfg, EMPTY_DISK, 1, 3);
  }

  lemma TinyStarts(cfg: Config)
    requires ConfigOk(cfg)
    ensures Resumable(cfg, EMPTY_DISK) && Start(cfg, EMPTY_DISK, 1, 3).Some?
    ensures |Start(cfg, EMPTY_DISK, 1, 3).value.workers| <= 1
  {
  }
}
