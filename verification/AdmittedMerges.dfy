// Admission and the merge together: what Admission.Evaluate guarantees for the
// merge it lets through, and what it does not.
module AdmittedMerges {
  import opened Manifests
  import opened Loading
  import opened Sums
  import opened MergeMachine
  import opened MergeInvariant
  import opened MergeOutput
  import opened MergeHistory
  import opened MergeProgress
  import opened MergeDeadlock
  import opened MergeJam
  import opened TinyMerge
  import P = Policies

  // ---------- Runs that always return ----------

  // A run that cannot be blocked can always be continued to its end; with
  // RunsAreFinite, every way of continuing it gets there.
  lemma {:induction false} UnblockableRunsFinish(cfg: Config, s0: State, s: State) returns (t: State)
    requires ConfigOk(cfg) && On(cfg, s0, s)
    requires !Blockable(cfg, s0.start, |s0.workers|, s0.budget.limit)
    ensures On(cfg, s0, t) && t.phase.Finished?
    decreases Rank(cfg, s)
  {
    OnInv(cfg, s0, s);
    RankNonNegative(cfg, s);
    if s.phase.Finished? {
      t := s;
    } else {
      if Stuck(cfg, s) {
        NeverStuckUnlessBlockable(cfg, s0, s);
      }
      var a :| Enabled(cfg, s, a) && !a.CancelCaller?;
      StepLowersRank(cfg, s, a);
      OnStep(cfg, s0, s, a);
      t := UnblockableRunsFinish(cfg, s0, Apply(cfg, s, a));
    }
  }

  lemma OneWorkerNeverStuck(cfg: Config, disk: Disk, concurrency: int, limit: int, t: State)
    requires ConfigOk(cfg) && Resumable(cfg, disk) && concurrency <= 1
    requires ReachedFrom(cfg, disk, concurrency, limit, t)
    ensures !Stuck(cfg, t)
  {
    FreshRunIsCalm(cfg, disk, concurrency, limit);
    if Stuck(cfg, t) {
      NeverStuckUnlessBlockable(cfg, Start(cfg, disk, concurrency, limit).value, t);
    }
  }

  // Bytes of the ordinals a run still has to load.
  ghost function PlannedMarks(cfg: Config, start: nat): seq<int> {
    seq(cfg.Count(), j requires 0 <= j < cfg.Count() => if j >= start then cfg.Weight(j) else 0)
  }

  lemma EnoughMemoryNeverStuck(cfg: Config, disk: Disk, concurrency: int, limit: int, t: State)
    requires ConfigOk(cfg) && Resumable(cfg, disk)
    requires ReachedFrom(cfg, disk, concurrency, limit, t)
    requires Sum(PlannedMarks(cfg, t.start)) <= t.budget.limit
    ensures !Stuck(cfg, t)
  {
    FreshRunIsCalm(cfg, disk, concurrency, limit);
    var s0 := Start(cfg, disk, concurrency, limit).value;
    OnFixed(cfg, s0, t);
    if Stuck(cfg, t) {
      NeverStuckUnlessBlockable(cfg, s0, t);
      var i: nat, m: nat, parked: set<nat> :|
        BlockedAt(cfg, s0.start, |s0.workers|, s0.budget.limit, i, m, parked);
      BlockedNeedsMore(cfg, s0.start, i, parked);
    }
  }

  lemma BlockedNeedsMore(cfg: Config, start: nat, i: nat, parked: set<nat>)
    requires ConfigOk(cfg) && start <= i < cfg.Count() && forall j :: j in parked ==> i < j
    ensures ParkedBytes(cfg, parked) + cfg.Weight(i) <= Sum(PlannedMarks(cfg, start))
  {
    var marks := ParkedMarks(cfg, parked);
    forall j | 0 <= j < cfg.Count() ensures cfg.Weight(j) >= 1 {
      assert SegmentOk(cfg.manifest.segments[j], cfg.manifest.totalSize);
    }
    SumUpdate(marks, i, cfg.Weight(i));
    SumOrdered(marks[i := cfg.Weight(i)], PlannedMarks(cfg, start));
  }

  // ---------- What admission guarantees ----------

  lemma AdmittedSegmentsFit(env: Env, source: Source, m: Manifest, limits: P.Limits, load: P.Load)
    requires Acceptable(m) && limits.Positive() && load.residentBytes >= 0
    requires P.Decide(limits, m, load).allowed
    ensures var d := P.Decide(limits, m, load);
      d.memoryLimit >= 1 && AllFit(Config(env, source, Compiled(m)), d.memoryLimit as int)
  {
    var d := P.Decide(limits, m, load);
    forall s | s in m.segments ensures s.logicalSize > 0 {
      var i :| 0 <= i < |m.segments| && m.segments[i] == s;
      assert SegmentOk(m.segments[i], m.totalSize);
    }
    P.AdmissionMeansRoom(limits, m, load);
    assert P.WithinLimits(limits, m, load);
    forall i | 0 <= i < |Compiled(m).segments| ensures 1 <= Compiled(m).segments[i].Weight() <= d.memoryLimit as int {
      assert Compiled(m).segments[i] in multiset(m.segments);
    }
    assert m.segments[0] in m.segments;
  }

  // Neither of worker k's budget calls can fail with ErrBudgetExceeded: the
  // check under the lock grants the lease or waits, and the verified bytes fit
  // what was reserved for them.
  ghost predicate NeverExceeds(cfg: Config, s: State, k: nat) {
    && (Enabled(cfg, s, Check(k)) ==> !ApplyCheck(cfg, s, k).workers[k].Failing?)
    && (Enabled(cfg, s, LoadOk(k)) ==> |cfg.Data(s.workers[k].job).value| <= cfg.Weight(s.workers[k].job))
  }

  lemma FittingNeverExceeds(cfg: Config, disk: Disk, concurrency: int, limit: int, s: State, k: nat)
    requires ConfigOk(cfg) && Resumable(cfg, disk) && AllFit(cfg, Clamp(limit))
    requires ReachedFrom(cfg, disk, concurrency, limit, s)
    ensures NeverExceeds(cfg, s, k)
  {
    FreshRunIsCalm(cfg, disk, concurrency, limit);
    OnFixed(cfg, Start(cfg, disk, concurrency, limit).value, s);
    hide On, RunInv, DiskInv, Resumable, ReachedFrom;
    FittingWorker(cfg, s, k);
  }

  lemma FittingWorker(cfg: Config, s: State, k: nat)
    requires AllFit(cfg, s.budget.limit)
    ensures NeverExceeds(cfg, s, k)
  {
  }

  // So a merge built from an admission decision never exceeds its budget.
  lemma AdmittedNeverExceeds(
    cfg: Config, m: Manifest, limits: P.Limits, load: P.Load, d: P.Decision, disk: Disk, s: State, k: nat)
    requires ConfigOk(cfg) && Acceptable(m) && cfg.manifest == Compiled(m) && Resumable(cfg, disk)
    requires limits.Positive() && load.residentBytes >= 0
    requires d == P.Decide(limits, m, load) && d.allowed
    requires ReachedFrom(cfg, disk, d.concurrency, d.memoryLimit as int, s)
    ensures NeverExceeds(cfg, s, k)
  {
    assert AllFit(cfg, Clamp(d.memoryLimit as int)) by {
      AdmittedSegmentsFit(cfg.env, cfg.source, m, limits, load);
    }
    FittingNeverExceeds(cfg, disk, d.concurrency, d.memoryLimit as int, s, k);
  }

  // ---------- What it does not ----------

  lemma ThreeEqualSegmentsJam(cfg: Config, w: int)
    requires cfg.Count() == 3 && w > 0 && forall i :: 0 <= i < 3 ==> cfg.Weight(i) == w
    ensures Blockable(cfg, 0, 2, 2 * w)
  {
    assert ParkedMarks(cfg, {1, 2}) == [0, w, w];
    assert [0] + [w] == [0, w] && [0, w] + [w] == [0, w, w];
    SumAppend([0], w);
    SumAppend([0, w], w);
    assert Skipped(0, 2, {1, 2}) == 0;
    assert BlockedAt(cfg, 0, 2, 2 * w, 0, 3, {1, 2});
  }

  lemma ThreeEqualAdmitted(m: Manifest, limits: P.Limits)
    requires Acceptable(m) && limits.Positive()
    requires |m.segments| == 3 && 3 <= limits.maxSegments && m.totalSize <= limits.maxManifestBytes
    requires forall s :: s in m.segments ==> 2 * s.Weight() == limits.maxResidentBytes as int
    ensures var d := P.Decide(limits, m, P.Load(0, 0));
      d.allowed && d.concurrency == 2 && d.memoryLimit == limits.maxResidentBytes
  {
    assert SegmentOk(m.segments[0], m.totalSize) && m.segments[0] in m.segments;
    ThreeEqualDecision(m, limits);
  }

  lemma ThreeEqualDecision(m: Manifest, limits: P.Limits)
    requires limits.Positive() && |m.segments| == 3 <= limits.maxSegments
    requires 0 < m.totalSize <= limits.maxManifestBytes
    requires 2 * P.Peak(m.segments) as int == limits.maxResidentBytes as int
    ensures var d := P.Decide(limits, m, P.Load(0, 0));
      d.allowed && d.concurrency == 2 && d.memoryLimit == limits.maxResidentBytes
  {
    CeilSqrtOfThree();
    TwiceOver(P.Peak(m.segments) as int);
  }

  lemma CeilSqrtOfThree()
    ensures P.CeilSqrt(3) == 2
  {
  }

  lemma TwiceOver(x: int)
    requires x > 0
    ensures (2 * x) / x == 2
  {
    P.Quotient(2 * x, x);
    if (2 * x) / x >= 3 {
      P.QuotientBound(2 * x, x, 3);
    } else if (2 * x) / x == 1 {
      P.QuotientBound(2 * x, x, 1);
    }
  }

  // Three equal segments and a limit of two of them: admission allows two
  // workers, and the two later segments can shut out the first for ever.
  lemma AdmittedMergeCanHang(cfg: Config, m: Manifest, limits: P.Limits, disk: Disk)
    requires ConfigOk(cfg) && AllLoad(cfg) && Acceptable(m) && cfg.manifest == Compiled(m)
    requires Resumable(cfg, disk) && cfg.FileID() !in disk.checkpoints
    requires limits.Positive() && 3 <= limits.maxSegments && m.totalSize <= limits.maxManifestBytes
    requires |m.segments| == 3
    requires forall s :: s in m.segments ==> 2 * s.Weight() == limits.maxResidentBytes as int
    ensures var d := P.Decide(limits, m, P.Load(0, 0));
      && d.allowed && d.concurrency * d.estimatedWeight as int <= d.memoryLimit as int
      && exists t :: ReachedFrom(cfg, disk, d.concurrency, d.memoryLimit as int, t) && Stuck(cfg, t)
  {
    hide Acceptable, AllLoad, P.Decide, Stuck, ReachedFrom, Blockable, Resumable;
    var d := P.Decide(limits, m, P.Load(0, 0));
    ThreeEqualAdmitted(m, limits);
    AdmittedSegmentsFit(cfg.env, cfg.source, m, limits, P.Load(0, 0));
    forall i | 0 <= i < 3 ensures 2 * cfg.Weight(i) == limits.maxResidentBytes as int {
      assert cfg.manifest.segments[i] in multiset(m.segments);
    }
    ThreeEqualSegmentsJam(cfg, cfg.Weight(0));
    HangsFromStart(cfg, disk, d.concurrency, d.memoryLimit as int);
    AdmittedPeak(m, limits);
  }

  lemma AdmittedPeak(m: Manifest, limits: P.Limits)
    requires Acceptable(m) && limits.Positive() && P.Decide(limits, m, P.Load(0, 0)).allowed
    ensures var d := P.Decide(limits, m, P.Load(0, 0));
      d.concurrency * d.estimatedWeight as int <= d.memoryLimit as int
  {
    forall s | s in m.segments ensures s.logicalSize > 0 {
      var i :| 0 <= i < |m.segments| && m.segments[i] == s;
      assert SegmentOk(m.segments[i], m.totalSize);
    }
    P.AdmissionMeansRoom(limits, m, P.Load(0, 0));
  }

  lemma HangsFromStart(cfg: Config, disk: Disk, concurrency: int, limit: int)
    requires ConfigOk(cfg) && AllLoad(cfg) && Resumable(cfg, disk) && cfg.FileID() !in disk.checkpoints
    requires AllFit(cfg, limit) && limit >= 1 && 1 <= concurrency <= cfg.Count()
    requires Blockable(cfg, 0, concurrency, limit)
    ensures exists t :: ReachedFrom(cfg, disk, concurrency, limit, t) && Stuck(cfg, t)
  {
    StuckIffBlockable(cfg, disk, concurrency, limit);
    var s0 := Start(cfg, disk, concurrency, limit).value;
    assert |s0.workers| == concurrency && s0.start == 0 && s0.budget.limit == limit;
    var t :| Reaches(cfg, s0, t) && Stuck(cfg, t);
    assert ReachedFrom(cfg, disk, concurrency, limit, t);
  }

  // Two bytes of memory for three segments of one byte.
  const TINY_LIMITS := P.Limits(1, 3, 3, 2, 1, 1, 1)

  // The side condition of progress is needed: whatever the digest function,
  // here is a merge that admission lets through and that reaches a state from
  // which only cancelling it helps.
  lemma AHangingMergeExists(env: Env) returns (d: P.Decision, t: State)
    requires DigestsAreHex(env)
    ensures Acceptable(Tiny(env)) && d == P.Decide(TINY_LIMITS, Tiny(env), P.Load(0, 0)) && d.allowed
    ensures ConfigOk(TinyConfig(env)) && AllLoad(TinyConfig(env)) && Resumable(TinyConfig(env), EMPTY_DISK)
    ensures ReachedFrom(TinyConfig(env), EMPTY_DISK, d.concurrency, d.memoryLimit as int, t)
    ensures Stuck(TinyConfig(env), t)
  {
    hide Acceptable, ConfigOk, AllLoad, P.Decide, Stuck, ReachedFrom, Compiled, Content, TinySegment;
    TinyIsAcceptable(env);
    TinySizes(env);
    TinyConfigOk(env);
    d := P.Decide(TINY_LIMITS, Tiny(env), P.Load(0, 0));
    AdmittedMergeCanHang(TinyConfig(env), Tiny(env), TINY_LIMITS, EMPTY_DISK);
    t :| ReachedFrom(TinyConfig(env), EMPTY_DISK, d.concurrency, d.memoryLimit as int, t) && Stuck(TinyConfig(env), t);
  }
}
