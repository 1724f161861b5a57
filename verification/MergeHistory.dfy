// Safety over whole histories of one file version: any number of runs, each
// with its own concurrency and memory limit, abandoned anywhere and resumed.
module MergeHistory {
  import opened Prelude
  import opened Budgets
  import opened Writers
  import opened Sums
  import opened MergeMachine
  import opened MergeInvariant
  import opened MergeOutput

  // ---------- One run ----------

  lemma StepKeeps(cfg: Config, s: State, t: State)
    requires ConfigOk(cfg) && RunInv(cfg, s) && DiskInv(cfg, s) && Step(cfg, s, t)
    ensures RunInv(cfg, t) && DiskInv(cfg, t)
    ensures Published(cfg, s.disk) ==> Published(cfg, t.disk)
  {
    var a :| Enabled(cfg, s, a) && t == Apply(cfg, s, a);
    RunKept(cfg, s, a);
    DiskKept(cfg, s, a);
  }

  // A state some run reaches from a resumable disk.
  ghost predicate Reachable(cfg: Config, s: State)
    requires ConfigOk(cfg)
  {
    exists disk: Disk, concurrency: int, limit: int ::
      Resumable(cfg, disk) && ReachedFrom(cfg, disk, concurrency, limit, s)
  }

  ghost predicate ReachedFrom(cfg: Config, disk: Disk, concurrency: int, limit: int, s: State)
    requires ConfigOk(cfg)
  {
    var first := Start(cfg, disk, concurrency, limit);
    first.Some? && Reaches(cfg, first.value, s)
  }

  // What every step keeps holds along every run.
  lemma {:induction false} RunKeeps(cfg: Config, run: seq<State>, keeps: State -> bool, i: nat)
    requires IsRun(cfg, run) && i < |run| && keeps(run[0])
    requires forall s, t :: keeps(s) && Step(cfg, s, t) ==> keeps(t)
    ensures keeps(run[i])
  {
    if i == 0 {
    } else {
      RunKeeps(cfg, run, keeps, i - 1);
      assert StepAt(cfg, run, i - 1);
    }
  }

  lemma ReachesKeepsInv(cfg: Config, s: State, t: State)
    requires ConfigOk(cfg) && RunInv(cfg, s) && DiskInv(cfg, s) && Reaches(cfg, s, t)
    ensures RunInv(cfg, t) && DiskInv(cfg, t)
  {
    var run :| RunTo(cfg, run, s, t);
    forall u, v | RunInv(cfg, u) && DiskInv(cfg, u) && Step(cfg, u, v)
      ensures RunInv(cfg, v) && DiskInv(cfg, v)
    {
      StepKeeps(cfg, u, v);
    }
    RunKeeps(cfg, run, u => RunInv(cfg, u) && DiskInv(cfg, u), |run| - 1);
  }

  lemma ReachableInv(cfg: Config, s: State)
    requires ConfigOk(cfg) && Reachable(cfg, s)
    ensures RunInv(cfg, s) && DiskInv(cfg, s)
  {
    var disk: Disk, concurrency: int, limit: int :|
      Resumable(cfg, disk) && ReachedFrom(cfg, disk, concurrency, limit, s);
    StartDisk(cfg, disk, concurrency, limit);
    ReachesKeepsInv(cfg, Start(cfg, disk, concurrency, limit).value, s);
  }

  // ---------- The byte budget ----------

  // In every reachable state both counters are the sums over the unreleased
  // leases, every unreleased lease has a holder, and the limit is respected.
  lemma BudgetBalances(cfg: Config, s: State)
    requires ConfigOk(cfg) && Reachable(cfg, s)
    ensures |s.leases| == cfg.Count()
    ensures s.budget.reserved == Sum(ReservedMarks(cfg, s.leases))
    ensures s.budget.resident == Sum(ResidentMarks(s.leases))
    ensures 0 <= s.budget.resident <= s.budget.reserved <= s.budget.limit
    ensures s.budget.resident <= s.budget.peak <= s.budget.limit
    ensures forall i :: 0 <= i < cfg.Count() && s.leases[i].Held? ==> HeldSomewhere(cfg, s, i)
  {
    ReachableInv(cfg, s);
    LeasesBounded(cfg, s);
    ResidentBelowReserved(cfg, s.leases);
  }

  // Once the results are drained, whatever the exit, nothing is reserved.
  lemma BudgetReturnsToZero(cfg: Config, s: State)
    requires ConfigOk(cfg) && Reachable(cfg, s) && Closed(s.phase)
    ensures s.budget.reserved == 0 && s.budget.resident == 0
  {
    ReachableInv(cfg, s);
    forall i | 0 <= i < |s.leases| ensures !s.leases[i].Held? {
      WorkersAtBounds(s.workers, i);
      QueueAtBounds(s.queue, i);
      assert s.leases[i].Held? ==> HeldSomewhere(cfg, s, i);
    }
    SumZeros(ReservedMarks(cfg, s.leases));
    SumZeros(ResidentMarks(s.leases));
  }

  // A sleeping worker that would fit has already been woken: the generation it
  // captured is over.
  lemma NoLostWakeUp(cfg: Config, s: State, k: nat)
    requires ConfigOk(cfg) && Reachable(cfg, s)
    requires k < |s.workers| && s.workers[k].Waiting?
    ensures s.workers[k].job < cfg.Count()
    ensures Fits(s.budget, cfg.Weight(s.workers[k].job)) ==> Enabled(cfg, s, Wake(k))
  {
    ReachableInv(cfg, s);
    assert WorkerLease(cfg, s, k);
  }

  // ---------- The segments ----------

  // No ordinal is lost or duplicated.
  lemma EveryOrdinalInOnePlace(cfg: Config, s: State, i: nat)
    requires ConfigOk(cfg) && Reachable(cfg, s) && s.start <= i < cfg.Count()
    ensures Places(s, i) == 1
  {
    ReachableInv(cfg, s);
  }

  // The collector never closes with a segment missing.
  lemma IncompleteIsUnreachable(cfg: Config, s: State)
    requires ConfigOk(cfg) && Reachable(cfg, s)
    ensures !Enabled(cfg, s, CloseIncomplete)
  {
    ReachableInv(cfg, s);
    if Enabled(cfg, s, CloseIncomplete) {
      ClosedMeansReceived(cfg, s);
    }
  }

  // Distinct numbers from a range of size n are at most n.
  lemma {:induction false} DistinctInRange(xs: seq<nat>, lo: nat, hi: nat)
    requires lo <= hi
    requires forall k :: 0 <= k < |xs| ==> lo <= xs[k] < hi
    requires forall k, l :: 0 <= k < l < |xs| ==> xs[k] != xs[l]
    ensures |xs| <= hi - lo
    decreases hi - lo
  {
    if xs == [] {
    } else {
      assert lo <= xs[0] < hi;
      if k :| 0 <= k < |xs| && xs[k] == hi - 1 {
        DistinctInRange(xs[..k] + xs[k + 1..], lo, hi - 1);
      } else {
        DistinctInRange(xs, lo, hi - 1);
      }
    }
  }

  // The channel has room for one result per planned entry, so a send never blocks.
  lemma SendNeverBlocks(cfg: Config, s: State)
    requires ConfigOk(cfg) && Reachable(cfg, s)
    ensures |s.queue| <= cfg.Count() - s.start
    ensures forall k :: 0 <= k < |s.workers| && (s.workers[k].Marked? || s.workers[k].Failing?) ==>
      |s.queue| < cfg.Count() - s.start
  {
    hide LeaseInv, BudgetInv, WakeInv, PhaseInv, DiskInv;
    ReachableInv(cfg, s);
    var ordinals := seq(|s.queue|, k requires 0 <= k < |s.queue| => s.queue[k].ordinal);
    QueueDistinct(cfg, s);
    DistinctInRange(ordinals, s.start, cfg.Count());
    forall k | 0 <= k < |s.workers| && (s.workers[k].Marked? || s.workers[k].Failing?)
      ensures |s.queue| < cfg.Count() - s.start
    {
      WorkerAlone(cfg, s, k, s.workers[k].job);
      assert Holds(s.workers[k], s.workers[k].job);
      DistinctInRange(ordinals + [s.workers[k].job], s.start, cfg.Count());
    }
  }

  lemma QueueDistinct(cfg: Config, s: State)
    requires ShapeInv(cfg, s) && PlacesInv(cfg, s)
    ensures forall k, l :: 0 <= k < l < |s.queue| ==> s.queue[k].ordinal != s.queue[l].ordinal
  {
    forall k, l | 0 <= k < l < |s.queue| ensures s.queue[k].ordinal != s.queue[l].ordinal {
      var i := s.queue[k].ordinal;
      assert Places(s, i) == 1;
      WorkersAtBounds(s.workers, i);
      QueueAtBounds(s.queue, i);
    }
  }

  // ---------- Histories of runs ----------

  datatype World = Between(disk: Disk) | Within(run: State)

  ghost predicate Launches(cfg: Config, disk: Disk, s: State)
    requires ConfigOk(cfg)
  {
    exists concurrency: int, limit: int :: Start(cfg, disk, concurrency, limit) == Some(s)
  }

  // Begin a run, take a step, or drop everything but what is durable.
  ghost predicate WorldStep(cfg: Config, w: World, v: World)
    requires ConfigOk(cfg)
  {
    match (w, v)
    case (Between(d), Within(s)) => Launches(cfg, d, s)
    case (Within(s), Within(t)) => Step(cfg, s, t)
    case (Within(s), Between(d)) => d == s.disk
    case _ => false
  }

  ghost predicate WorldStepAt(cfg: Config, h: seq<World>, k: nat)
    requires ConfigOk(cfg) && k + 1 < |h|
  {
    WorldStep(cfg, h[k], h[k + 1])
  }

  // The file has no checkpoint at first; the writer may hold other work.
  ghost predicate IsHistory(cfg: Config, h: seq<World>)
    requires ConfigOk(cfg)
  {
    && h != [] && h[0].Between?
    && cfg.FileID() !in h[0].disk.checkpoints && NamesIssued(h[0].disk.writer)
    && forall i :: 0 <= i < |h| - 1 ==> WorldStepAt(cfg, h, i)
  }

  function DiskOf(w: World): Disk {
    match w
    case Between(d) => d
    case Within(s) => s.disk
  }

  // A checkpoint outlived its draft: the run was dropped between Commit or
  // Abort and the removal of the checkpoint.
  ghost predicate Stranded(cfg: Config, disk: Disk) {
    && cfg.FileID() in disk.checkpoints
    && disk.checkpoints[cfg.FileID()].sessionID != ""
    && disk.checkpoints[cfg.FileID()].sessionID !in disk.writer.drafts
  }

  ghost predicate WorldInv(cfg: Config, w: World)
    requires ConfigOk(cfg)
  {
    match w
    case Between(d) => Resumable(cfg, d) || Stranded(cfg, d)
    case Within(s) => RunInv(cfg, s) && DiskInv(cfg, s)
  }

  lemma StrandedNeverStarts(cfg: Config, disk: Disk, concurrency: int, limit: int)
    requires ConfigOk(cfg) && Stranded(cfg, disk)
    ensures Start(cfg, disk, concurrency, limit).None?
  {
  }

  // Exactly when a dropped run can be taken up again.
  lemma ResumableIffDraftSurvives(cfg: Config, s: State, concurrency: int, limit: int)
    requires ConfigOk(cfg) && RunInv(cfg, s) && DiskInv(cfg, s)
    ensures Start(cfg, s.disk, concurrency, limit).Some? <==>
      cfg.FileID() !in s.disk.checkpoints || Staged(s.phase)
    ensures Resumable(cfg, s.disk) <==> cfg.FileID() !in s.disk.checkpoints || Staged(s.phase)
    ensures Resumable(cfg, s.disk) || Stranded(cfg, s.disk)
  {
    if cfg.FileID() !in s.disk.checkpoints || Staged(s.phase) {
      if cfg.FileID() in s.disk.checkpoints {
        var c := s.disk.checkpoints[cfg.FileID()];
        DraftOkBelow(cfg, s.disk.writer.drafts[s.session], c.nextOrdinal, s.next);
      }
      assert Resumable(cfg, s.disk);
      StartDisk(cfg, s.disk, concurrency, limit);
    } else {
      StrandedNeverStarts(cfg, s.disk, concurrency, limit);
    }
  }

  lemma WorldStepKeeps(cfg: Config, w: World, v: World)
    requires ConfigOk(cfg) && WorldInv(cfg, w) && WorldStep(cfg, w, v)
    ensures WorldInv(cfg, v)
    ensures Published(cfg, DiskOf(w)) ==> Published(cfg, DiskOf(v))
  {
    match (w, v)
    case (Between(d), Within(s)) =>
      var concurrency: int, limit: int :| Start(cfg, d, concurrency, limit) == Some(s);
      if Stranded(cfg, d) {
        StrandedNeverStarts(cfg, d, concurrency, limit);
      }
      StartDisk(cfg, d, concurrency, limit);
    case (Within(s), Within(t)) => StepKeeps(cfg, s, t);
    case (Within(s), Between(d)) => ResumableIffDraftSurvives(cfg, s, 1, 1);
  }

  lemma {:induction false} HistoryInv(cfg: Config, h: seq<World>, i: nat)
    requires ConfigOk(cfg) && IsHistory(cfg, h) && i < |h|
    ensures WorldInv(cfg, h[i])
  {
    if i == 0 {
    } else {
      HistoryInv(cfg, h, i - 1);
      assert WorldStepAt(cfg, h, i - 1);
      WorldStepKeeps(cfg, h[i - 1], h[i]);
    }
  }

  lemma PublishedNext(cfg: Config, h: seq<World>, k: nat)
    requires ConfigOk(cfg) && IsHistory(cfg, h) && k < |h| - 1
    ensures Published(cfg, DiskOf(h[k])) ==> Published(cfg, DiskOf(h[k + 1]))
  {
    HistoryInv(cfg, h, k);
    assert WorldStepAt(cfg, h, k);
    WorldStepKeeps(cfg, h[k], h[k + 1]);
  }

  // What was published stays published, whatever runs follow.
  lemma {:induction false} PublishedForGood(cfg: Config, h: seq<World>, i: nat, j: nat)
    requires ConfigOk(cfg) && IsHistory(cfg, h) && i <= j < |h|
    requires Published(cfg, DiskOf(h[i]))
    ensures Published(cfg, DiskOf(h[j]))
  {
    if i == j {
    } else {
      PublishedForGood(cfg, h, i, j - 1);
      PublishedNext(cfg, h, j - 1);
    }
  }

  // ---------- The two main results ----------

  // However the workers interleaved and however often earlier runs were
  // dropped, a merge that succeeds has published exactly the specified file,
  // with output, receipt and index entry agreeing and no checkpoint left.
  lemma MergePublishesExpected(cfg: Config, h: seq<World>, i: nat)
    requires ConfigOk(cfg) && IsHistory(cfg, h) && i < |h|
    requires h[i].Within? && h[i].run.phase == Finished(End.Success)
    ensures AllLoad(cfg)
    ensures var disk := h[i].run.disk;
      var receipt := ExpectedReceipt(cfg, Expected(cfg));
      && cfg.FileID() in disk.writer.data && disk.writer.data[cfg.FileID()] == Expected(cfg)
      && cfg.FileID() in disk.writer.outputs && disk.writer.outputs[cfg.FileID()] == receipt
      && cfg.FileID() in disk.index && disk.index[cfg.FileID()] == receipt
      && cfg.FileID() !in disk.checkpoints
  {
    HistoryInv(cfg, h, i);
  }

  // Resuming refines restarting: two histories of the same file version, with
  // any interruptions, concurrency and limits, publish the same bytes.
  lemma ResumeRefinesRestart(cfg: Config, h: seq<World>, i: nat, g: seq<World>, j: nat)
    requires ConfigOk(cfg) && IsHistory(cfg, h) && i < |h| && IsHistory(cfg, g) && j < |g|
    requires h[i].Within? && h[i].run.phase == Finished(End.Success)
    requires g[j].Within? && g[j].run.phase == Finished(End.Success)
    ensures var f := cfg.FileID(); var d, e := h[i].run.disk, g[j].run.disk;
      && f in d.writer.data && f in e.writer.data && d.writer.data[f] == e.writer.data[f]
      && f in d.writer.outputs && f in e.writer.outputs && d.writer.outputs[f] == e.writer.outputs[f]
      && f in d.index && f in e.index && d.index[f] == e.index[f]
  {
    MergePublishesExpected(cfg, h, i);
    MergePublishesExpected(cfg, g, j);
  }

  // The resume invariant itself: below the checkpoint's OutputSize the
  // surviving draft already is the final file.
  lemma CheckpointCoversPrefix(cfg: Config, h: seq<World>, i: nat, p: nat)
    requires ConfigOk(cfg) && AllLoad(cfg) && IsHistory(cfg, h) && i < |h|
    requires cfg.FileID() in DiskOf(h[i]).checkpoints
    requires p < DiskOf(h[i]).checkpoints[cfg.FileID()].outputSize
    ensures var disk := DiskOf(h[i]);
      var c := disk.checkpoints[cfg.FileID()];
      c.sessionID in disk.writer.drafts ==>
        p < |disk.writer.drafts[c.sessionID].data| && p < |Expected(cfg)|
        && disk.writer.drafts[c.sessionID].data[p] == Expected(cfg)[p]
  {
    HistoryInv(cfg, h, i);
    var disk := DiskOf(h[i]);
    var c := disk.checkpoints[cfg.FileID()];
    if c.sessionID in disk.writer.drafts {
      if h[i].Within? {
        ResumableIffDraftSurvives(cfg, h[i].run, 1, 1);
      }
      MergedPrefix(cfg, disk.writer.drafts[c.sessionID].data, c.nextOrdinal, p);
    }
  }
}
