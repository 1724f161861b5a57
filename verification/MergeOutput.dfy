// What a merge publishes: the bytes a manifest stands for, why the staged draft
// always agrees with them below the next ordinal, and what a commit leaves.
module MergeOutput {
  import opened Prelude
  import opened Manifests
  import opened Budgets
  import opened Writers
  import opened MergeMachine
  import opened MergeInvariant

  // ---------- The specification, position by position ----------

  predicate Covers(s: Segment, p: int) {
    s.Begin() <= p < s.End()
  }

  ghost predicate AllLoad(cfg: Config) {
    forall i :: 0 <= i < cfg.Count() ==> cfg.Data(i).Success?
  }

  // The byte at p as the first k segments determine it; a gap is zero.
  ghost function ByteAt(cfg: Config, p: int, k: nat): byte
    requires k <= cfg.Count() && AllLoad(cfg)
  {
    if k == 0 then 0
    else if Covers(cfg.manifest.segments[k - 1], p) then
      cfg.Data(k - 1).value[p - cfg.manifest.segments[k - 1].Begin()]
    else ByteAt(cfg, p, k - 1)
  }

  // The whole file: every segment's verified bytes at its offset, zeros elsewhere.
  ghost function Expected(cfg: Config): (r: bytes)
    requires ConfigOk(cfg) && AllLoad(cfg)
    ensures |r| == cfg.manifest.totalSize as int
  {
    seq(cfg.manifest.totalSize as nat,
      p requires 0 <= p < cfg.manifest.totalSize as int => ByteAt(cfg, p, cfg.Count()))
  }

  // The state of a draft after k segments: those k slices are right and every
  // position no segment covers is still zero.
  ghost predicate Merged(cfg: Config, out: bytes, k: nat)
    requires ConfigOk(cfg) && k <= cfg.Count()
  {
    && |out| == cfg.manifest.totalSize as int
    && (forall i :: 0 <= i < k ==> SliceOk(cfg, out, i))
    && (forall p :: 0 <= p < |out| && Uncovered(cfg, p) ==> out[p] == 0)
  }

  predicate Uncovered(cfg: Config, p: int) {
    forall i :: 0 <= i < cfg.Count() ==> !Covers(cfg.manifest.segments[i], p)
  }

  ghost predicate SliceOk(cfg: Config, out: bytes, i: nat)
    requires ConfigOk(cfg) && i < cfg.Count() && |out| == cfg.manifest.totalSize as int
  {
    var s := cfg.manifest.segments[i];
    assert SegmentOk(s, cfg.manifest.totalSize);
    cfg.Data(i) == Result.Success(out[s.Begin()..s.End()])
  }

  lemma {:induction false} ByteAtCovered(cfg: Config, p: int, i: nat, k: nat)
    requires ConfigOk(cfg) && AllLoad(cfg) && i < k <= cfg.Count()
    requires Covers(cfg.manifest.segments[i], p)
    ensures ByteAt(cfg, p, k) == cfg.Data(i).value[p - cfg.manifest.segments[i].Begin()]
  {
    if i == k - 1 {
    } else {
      assert cfg.manifest.segments[i].End() <= cfg.manifest.segments[k - 1].Begin();
      ByteAtCovered(cfg, p, i, k - 1);
    }
  }

  lemma {:induction false} ByteAtUncovered(cfg: Config, p: int, k: nat)
    requires k <= cfg.Count() && AllLoad(cfg) && Uncovered(cfg, p)
    ensures ByteAt(cfg, p, k) == 0
  {
    if k == 0 {
    } else {
      ByteAtUncovered(cfg, p, k - 1);
    }
  }

  // Below the end of the k-th segment, a draft after k segments is already final.
  lemma MergedPrefix(cfg: Config, out: bytes, k: nat, p: nat)
    requires ConfigOk(cfg) && AllLoad(cfg) && k <= cfg.Count() && Merged(cfg, out, k)
    requires if k == cfg.Count() then p < |out| else k > 0 && p < cfg.manifest.segments[k - 1].End()
    ensures p < |out| && out[p] == Expected(cfg)[p]
  {
    if k > 0 {
      assert SegmentOk(cfg.manifest.segments[k - 1], cfg.manifest.totalSize);
    }
    if Uncovered(cfg, p) {
      ByteAtUncovered(cfg, p, cfg.Count());
    } else {
      var i :| 0 <= i < cfg.Count() && Covers(cfg.manifest.segments[i], p);
      assert i < k;
      assert SliceOk(cfg, out, i);
      ByteAtCovered(cfg, p, i, cfg.Count());
      var s := cfg.manifest.segments[i];
      assert out[s.Begin()..s.End()][p - s.Begin()] == out[p];
    }
  }

  // The complete draft is the specified file and nothing else is.
  lemma MergedIsExpected(cfg: Config, out: bytes)
    requires ConfigOk(cfg)
    ensures Merged(cfg, out, cfg.Count()) <==> AllLoad(cfg) && out == Expected(cfg)
  {
    if Merged(cfg, out, cfg.Count()) {
      forall i | 0 <= i < cfg.Count() ensures cfg.Data(i).Success? {
        assert SliceOk(cfg, out, i);
      }
      forall p | 0 <= p < |out| ensures out[p] == Expected(cfg)[p] {
        MergedPrefix(cfg, out, cfg.Count(), p);
      }
    }
    if AllLoad(cfg) && out == Expected(cfg) {
      forall i | 0 <= i < cfg.Count() ensures SliceOk(cfg, out, i) {
        var s := cfg.manifest.segments[i];
        assert SegmentOk(s, cfg.manifest.totalSize);
        forall q | 0 <= q < s.Weight() ensures out[s.Begin()..s.End()][q] == cfg.Data(i).value[q] {
          ByteAtCovered(cfg, s.Begin() + q, i, cfg.Count());
        }
        assert out[s.Begin()..s.End()] == cfg.Data(i).value;
      }
      forall p | 0 <= p < |out| && Uncovered(cfg, p) ensures out[p] == 0 {
        ByteAtUncovered(cfg, p, cfg.Count());
      }
    }
  }

  // Appending segment k at its offset turns a draft after k into one after k + 1.
  lemma MergedExtends(cfg: Config, out: bytes, k: nat)
    requires ConfigOk(cfg) && k < cfg.Count() && Merged(cfg, out, k) && cfg.Data(k).Success?
    ensures var s := cfg.manifest.segments[k];
      && 0 <= s.Begin() <= |out| - |cfg.Data(k).value|
      && Merged(cfg, Overwrite(out, s.Begin(), cfg.Data(k).value), k + 1)
  {
    var s := cfg.manifest.segments[k];
    assert SegmentOk(s, cfg.manifest.totalSize);
    var new' := Overwrite(out, s.Begin(), cfg.Data(k).value);
    forall i | 0 <= i < k + 1 ensures SliceOk(cfg, new', i) {
      var t := cfg.manifest.segments[i];
      assert SegmentOk(t, cfg.manifest.totalSize);
      if i < k {
        assert SliceOk(cfg, out, i) && t.End() <= s.Begin();
        assert new'[t.Begin()..t.End()] == out[t.Begin()..t.End()];
      } else {
        assert new'[s.Begin()..s.End()] == cfg.Data(k).value;
      }
    }
    forall p | 0 <= p < |new'| && Uncovered(cfg, p) ensures new'[p] == 0 {
      assert !Covers(s, p);
    }
  }

  lemma ZerosAreMerged(cfg: Config)
    requires ConfigOk(cfg)
    ensures Merged(cfg, Zeros(cfg.manifest.totalSize as nat), 0)
  {
  }

  // ---------- What is durable ----------

  function ExpectedReceipt(cfg: Config, data: bytes): CommitReceipt {
    CommitReceipt(cfg.FileID(), cfg.manifest.version, |data|, cfg.env.digest(data))
  }

  // The file is published: bytes and receipt are those of the specification.
  ghost predicate Published(cfg: Config, disk: Disk)
    requires ConfigOk(cfg)
  {
    && AllLoad(cfg)
    && cfg.FileID() in disk.writer.data && disk.writer.data[cfg.FileID()] == Expected(cfg)
    && cfg.FileID() in disk.writer.outputs
    && disk.writer.outputs[cfg.FileID()] == ExpectedReceipt(cfg, Expected(cfg))
  }

  ghost predicate DraftOk(cfg: Config, draft: Draft, k: nat)
    requires ConfigOk(cfg) && k <= cfg.Count()
  {
    draft.fileID == cfg.FileID() && draft.version == cfg.manifest.version && Merged(cfg, draft.data, k)
  }

  ghost predicate CheckpointOk(cfg: Config, c: Checkpoint) {
    && c.Matches(cfg.manifest) && 1 <= c.nextOrdinal <= cfg.Count() && c.sessionID != ""
    && c.outputSize == cfg.manifest.segments[c.nextOrdinal - 1].End()
  }

  // A disk the next run can start from.
  ghost predicate Resumable(cfg: Config, disk: Disk)
    requires ConfigOk(cfg)
  {
    && NamesIssued(disk.writer)
    && (cfg.FileID() in disk.checkpoints ==>
          var c := disk.checkpoints[cfg.FileID()];
          && CheckpointOk(cfg, c)
          && c.sessionID in disk.writer.drafts
          && DraftOk(cfg, disk.writer.drafts[c.sessionID], c.nextOrdinal))
  }

  // The session's draft is still staged.
  predicate Staged(p: Phase) {
    !p.Clearing? && !p.Indexing? && !p.Unmarking? && !(p.Finished? && p.end != NotCommitted)
  }

  predicate PastCommit(p: Phase) {
    p.Indexing? || p.Unmarking? || (p.Finished? && (p.end.Success? || p.end.OnlyCommitted?))
  }

  ghost predicate DiskInv(cfg: Config, s: State)
    requires ConfigOk(cfg)
  {
    && s.next <= cfg.Count() && s.session != "" && NamesIssued(s.disk.writer)
    && (Staged(s.phase) <==> s.session in s.disk.writer.drafts)
    && (Staged(s.phase) ==> DraftOk(cfg, s.disk.writer.drafts[s.session], s.next))
    && (cfg.FileID() in s.disk.checkpoints ==>
          var c := s.disk.checkpoints[cfg.FileID()];
          CheckpointOk(cfg, c) && c.sessionID == s.session && c.nextOrdinal <= s.next)
    && (PastCommit(s.phase) ==> Published(cfg, s.disk))
    && (s.phase.Unmarking? || s.phase == Finished(End.Success) ==>
          && cfg.FileID() in s.disk.index
          && s.disk.index[cfg.FileID()] == s.disk.writer.outputs[cfg.FileID()])
    && (s.phase == Finished(End.Success) || s.phase == Finished(End.Aborted) ==>
          cfg.FileID() !in s.disk.checkpoints)
  }

  // A smaller resume point needs less of the draft.
  lemma DraftOkBelow(cfg: Config, draft: Draft, k: nat, l: nat)
    requires ConfigOk(cfg) && k <= l <= cfg.Count() && DraftOk(cfg, draft, l)
    ensures DraftOk(cfg, draft, k)
  {
  }

  // ---------- Every step keeps it ----------

  lemma StartDisk(cfg: Config, disk: Disk, concurrency: int, limit: int)
    requires ConfigOk(cfg) && Resumable(cfg, disk)
    ensures Start(cfg, disk, concurrency, limit).Some?
    ensures var s := Start(cfg, disk, concurrency, limit).value;
      && RunInv(cfg, s) && DiskInv(cfg, s)
      && (Published(cfg, disk) ==> Published(cfg, s.disk))
  {
    var s := Start(cfg, disk, concurrency, limit).value;
    ZerosAreMerged(cfg);
    NextNameIsFresh(disk.writer);
    StartRun(cfg, disk, concurrency, limit);
  }

  lemma StartRun(cfg: Config, disk: Disk, concurrency: int, limit: int)
    requires ConfigOk(cfg) && Start(cfg, disk, concurrency, limit).Some?
    ensures RunInv(cfg, Start(cfg, disk, concurrency, limit).value)
  {
    var s := Start(cfg, disk, concurrency, limit).value;
    forall i: nat | s.start <= i < cfg.Count() ensures Places(s, i) == 1 {
      WorkersAtBounds(s.workers, i);
      QueueAtBounds(s.queue, i);
    }
    Sums.SumZeros(ReservedMarks(cfg, s.leases));
    Sums.SumZeros(ResidentMarks(s.leases));
  }

  predicate TouchesDisk(a: Action) {
    || a.Append? || a.Save? || a.AbortSession? || a.ClearCheckpoint?
    || a.Commit? || a.PutIndex? || a.ClearDone?
  }

  // Everything DiskInv looks at is as it was.
  ghost predicate SameDisk(s: State, t: State) {
    && t.disk == s.disk && t.next == s.next && t.session == s.session
    && Staged(t.phase) == Staged(s.phase) && PastCommit(t.phase) == PastCommit(s.phase)
    && (t.phase.Unmarking? <==> s.phase.Unmarking?)
    && (t.phase.Finished? ==> t.phase == s.phase)
  }

  lemma WorkersLeaveDisk(cfg: Config, s: State, a: Action)
    requires Enabled(cfg, s, a) && WorkerStep(a)
    ensures SameDisk(s, Apply(cfg, s, a))
  {
    hide Release, Fits, ApplyReceive, ApplyAppend, ApplySave, DropPending, ApplyDrain, ApplyCommit, ApplyPutIndex;
    if a.LoadFail? {
      ReleaseOnly(cfg, s, s.workers[a.worker].job);
    }
  }

  lemma DiskUntouched(cfg: Config, s: State, a: Action)
    requires Enabled(cfg, s, a) && !TouchesDisk(a)
    ensures SameDisk(s, Apply(cfg, s, a))
  {
    hide Release, ApplyCheck, ApplyLoadOk, ApplyAppend, ApplySave, ApplyCommit, ApplyPutIndex, SetWorker;
    match a
    case FreeLease => ReleaseOnly(cfg, s, s.next - 1);
    case ReleasePending(i) => ReleaseOnly(cfg, s, i);
    case Drain => ReleaseOnly(cfg, s, s.queue[0].ordinal);
    case _ =>
      if WorkerStep(a) {
        WorkersLeaveDisk(cfg, s, a);
      }
  }

  // The loaded bytes always fit the draft, so only the caller's context can refuse an append.
  lemma AppendIsAccepted(cfg: Config, s: State)
    requires ConfigOk(cfg) && RunInv(cfg, s) && DiskInv(cfg, s) && Enabled(cfg, s, Append)
    ensures AppendSucceeds(cfg, s) <==> !s.callerDone
    ensures cfg.Data(s.next) == Result.Success(s.pending[s.next])
  {
    assert PendingLease(cfg, s, s.next);
    MergedExtends(cfg, s.disk.writer.drafts[s.session].data, s.next);
    hide PlacesInv, BudgetInv, WakeInv, PhaseInv, LeaseInv, Merged, AllLoad, Expected;
  }

  lemma AppendOkKeepsDisk(cfg: Config, s: State)
    requires ConfigOk(cfg) && DiskInv(cfg, s) && Enabled(cfg, s, Append) && AppendSucceeds(cfg, s)
    requires cfg.Data(s.next) == Result.Success(s.pending[s.next])
    ensures DiskInv(cfg, ApplyAppend(cfg, s))
    ensures Published(cfg, s.disk) ==> Published(cfg, ApplyAppend(cfg, s).disk)
  {
    MergedExtends(cfg, s.disk.writer.drafts[s.session].data, s.next);
    hide ConfigOk, Merged, AllLoad, Expected, Overwrite, Release, ExpectedReceipt, CheckpointOk;
  }

  lemma AppendKeepsDisk(cfg: Config, s: State)
    requires ConfigOk(cfg) && RunInv(cfg, s) && DiskInv(cfg, s) && Enabled(cfg, s, Append)
    ensures AppendSucceeds(cfg, s) <==> !s.callerDone
    ensures DiskInv(cfg, ApplyAppend(cfg, s))
    ensures Published(cfg, s.disk) ==> Published(cfg, ApplyAppend(cfg, s).disk)
  {
    AppendIsAccepted(cfg, s);
    if AppendSucceeds(cfg, s) {
      hide DiskInv, RunInv, ConfigOk, Published, ApplyAppend;
      AppendOkKeepsDisk(cfg, s);
    } else {
      ReleaseOnly(cfg, s, s.next);
      DiskCarried(cfg, s, ApplyAppend(cfg, s));
      hide DiskInv, RunInv, ConfigOk, Published, Release;
    }
  }

  lemma SaveKeepsDisk(cfg: Config, s: State)
    requires ConfigOk(cfg) && DiskInv(cfg, s) && Enabled(cfg, s, Save)
    requires cfg.Data(s.next - 1) == Result.Success(s.phase.data)
    ensures DiskInv(cfg, ApplySave(cfg, s))
    ensures Published(cfg, s.disk) ==> Published(cfg, ApplySave(cfg, s).disk)
  {
  }

  lemma CommitKeepsDisk(cfg: Config, s: State)
    requires ConfigOk(cfg) && RunInv(cfg, s) && DiskInv(cfg, s) && Enabled(cfg, s, Commit)
    ensures DiskInv(cfg, ApplyCommit(cfg, s))
    ensures Published(cfg, s.disk) ==> Published(cfg, ApplyCommit(cfg, s).disk)
  {
    MergedIsExpected(cfg, s.disk.writer.drafts[s.session].data);
  }

  lemma CleanupKeepsDisk(cfg: Config, s: State, a: Action)
    requires ConfigOk(cfg) && RunInv(cfg, s) && DiskInv(cfg, s) && Enabled(cfg, s, a)
    requires a.AbortSession? || a.ClearCheckpoint? || a.PutIndex? || a.ClearDone?
    ensures DiskInv(cfg, Apply(cfg, s, a))
    ensures Published(cfg, s.disk) ==> Published(cfg, Apply(cfg, s, a).disk)
  {
    hide RunInv, DraftOk, DiskInv, Published, ConfigOk, ApplyCheck, ApplyLoadOk, ApplyReceive, ApplyAppend, ApplySave;
    hide DropPending, ApplyDrain, ApplyCommit, ApplyPutIndex, Release, SetWorker;
    match a
    case AbortSession => AbortKeepsDisk(cfg, s);
    case PutIndex => PutIndexKeepsDisk(cfg, s);
    case _ => ClearKeepsDisk(cfg, s, a);
  }

  lemma AbortKeepsDisk(cfg: Config, s: State)
    requires ConfigOk(cfg) && DiskInv(cfg, s) && Enabled(cfg, s, AbortSession)
    ensures DiskInv(cfg, Apply(cfg, s, AbortSession))
    ensures Published(cfg, s.disk) ==> Published(cfg, Apply(cfg, s, AbortSession).disk)
  {
  }

  lemma PutIndexKeepsDisk(cfg: Config, s: State)
    requires ConfigOk(cfg) && DiskInv(cfg, s) && Enabled(cfg, s, PutIndex)
    ensures DiskInv(cfg, ApplyPutIndex(cfg, s))
    ensures Published(cfg, s.disk) ==> Published(cfg, ApplyPutIndex(cfg, s).disk)
  {
  }

  lemma ClearKeepsDisk(cfg: Config, s: State, a: Action)
    requires ConfigOk(cfg) && DiskInv(cfg, s) && Enabled(cfg, s, a) && (a.ClearCheckpoint? || a.ClearDone?)
    ensures DiskInv(cfg, Apply(cfg, s, a))
    ensures Published(cfg, s.disk) ==> Published(cfg, Apply(cfg, s, a).disk)
  {
  }

  lemma FreedData(cfg: Config, s: State)
    requires RunInv(cfg, s) && s.phase.Freed?
    ensures 0 < s.next && cfg.Data(s.next - 1) == Result.Success(s.phase.data)
  {
    assert PendingLease(cfg, s, s.next - 1);
  }

  lemma DiskCarried(cfg: Config, s: State, t: State)
    requires ConfigOk(cfg) && DiskInv(cfg, s)
    requires SameDisk(s, t)
    ensures DiskInv(cfg, t)
    ensures Published(cfg, s.disk) ==> Published(cfg, t.disk)
  {
  }

  lemma OtherStepKeepsDisk(cfg: Config, s: State, a: Action)
    requires ConfigOk(cfg) && DiskInv(cfg, s) && Enabled(cfg, s, a) && !TouchesDisk(a)
    ensures DiskInv(cfg, Apply(cfg, s, a))
    ensures Published(cfg, s.disk) ==> Published(cfg, Apply(cfg, s, a).disk)
  {
    hide SameDisk, DiskInv, Apply, Enabled, Published;
    DiskUntouched(cfg, s, a);
    DiskCarried(cfg, s, Apply(cfg, s, a));
  }

  lemma DiskKept(cfg: Config, s: State, a: Action)
    requires ConfigOk(cfg) && RunInv(cfg, s) && DiskInv(cfg, s) && Enabled(cfg, s, a)
    ensures DiskInv(cfg, Apply(cfg, s, a))
    ensures Published(cfg, s.disk) ==> Published(cfg, Apply(cfg, s, a).disk)
  {
    if a.Append? {
      AppendKeepsDisk(cfg, s);
    } else if a.Save? {
      FreedData(cfg, s);
      SaveKeepsDisk(cfg, s);
    } else if a.Commit? {
      CommitKeepsDisk(cfg, s);
    } else if a.AbortSession? || a.ClearCheckpoint? || a.PutIndex? || a.ClearDone? {
      CleanupKeepsDisk(cfg, s, a);
    } else {
      OtherStepKeepsDisk(cfg, s, a);
    }
  }
}
