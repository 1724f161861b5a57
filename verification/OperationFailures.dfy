// Runs of the service, from its first state, in which something goes wrong
// that its documentation or its users would not expect.
module OperationFailures {
  import opened Prelude
  import opened Manifests
  import opened Writers
  import opened Policies
  import opened Catalogs
  import opened Operations
  import opened Lifecycle
  import opened Endings
  import opened TinyMerge
  import Loading
  import MergeInvariant
  import MergeOutput
  import OperationHistory
  import L = Leases

  // ---------- Steps and runs ----------

  ghost predicate Reached(e: Settings, s: State) {
    exists run :: IsRun(e, run) && run[|run| - 1] == s
  }

  lemma ReachedFirst(e: Settings)
    ensures Reached(e, INITIAL)
  {
    assert IsRun(e, [INITIAL]);
  }

  lemma ReachedStep(e: Settings, s: State, a: Action)
    requires Reached(e, s) && Enabled(e, s, a)
    ensures Reached(e, Apply(e, s, a))
  {
    hide Move, Allowed, Width;
    var run :| IsRun(e, run) && run[|run| - 1] == s;
    var longer := run + [Apply(e, s, a)];
    forall k | 0 <= k < |longer| - 1 ensures StepAt(e, longer, k) {
      if k < |run| - 1 {
        assert StepAt(e, run, k);
        var b :| Enabled(e, run[k], b) && run[k + 1] == Apply(e, run[k], b);
        assert longer[k] == run[k] && longer[k + 1] == run[k + 1];
        assert Enabled(e, longer[k], b);
      } else {
        assert longer[k] == s && longer[k + 1] == Apply(e, s, a);
        assert Enabled(e, longer[k], a);
      }
    }
    assert IsRun(e, longer) && longer[|longer| - 1] == Apply(e, s, a);
  }

  // One step of one thread.
  ghost predicate Moves(e: Settings, w: Shared, t: Thread, c: Choice, v: Shared, u: Thread) {
    Allowed(e, w, t, c) && Move(e, w, t, c) == (v, u)
  }

  lemma Go(e: Settings, s: State, k: nat, c: Choice, v: Shared, u: Thread) returns (z: State)
    requires Reached(e, s) && k < |s.threads| && Moves(e, s.shared, s.threads[k], c, v, u)
    ensures Reached(e, z) && z.shared == v && z.threads == s.threads[k := u]
  {
    hide Move, Allowed, Width;
    ReachedStep(e, s, Action.Go(k, c));
    z := Apply(e, s, Action.Go(k, c));
  }

  lemma Arrives(e: Settings, s: State, t: Thread) returns (z: State)
    requires Reached(e, s) && (t.Admitting? || t.Looking? || t.CancelLooking?)
    ensures Reached(e, z) && z.shared == s.shared && z.threads == s.threads + [t]
  {
    ReachedStep(e, s, Arrive(t));
    z := Apply(e, s, Arrive(t));
  }

  // ---------- One request, submitted and started ----------

  // A request that is valid, admitted beside one other operation, and merges to this receipt.
  ghost predicate Workable(e: Settings, r: Request, receipt: CommitReceipt) {
    && e.limits.Positive() && e.workerID != "" && e.ttl > 0
    && ValidRequest(r) && r.manifest.fileID != ""
    && Decide(e.limits, r.manifest, Load(0, 0)).allowed && Decide(e.limits, r.manifest, Load(1, 0)).allowed
    && MergeYields(e.env, r, receipt) && receipt.fileID != ""
  }

  function FirstOp(id: string, r: Request): Op {
    NewOp(id, r)
  }

  function FirstLease(e: Settings, r: Request, now: int): L.Lease {
    L.Lease(Resource(r.manifest), e.workerID, 1, now, now + e.ttl)
  }

  function RunningOp(e: Settings, id: string, r: Request, now: int): Op {
    Started(NewOp(id, r), FirstLease(e, r, now))
  }

  function DoneOp(e: Settings, id: string, r: Request, now: int, receipt: CommitReceipt): Op {
    RunningOp(e, id, r, now).(state := Completed, result := Some(receipt))
  }

  // The catalog with this one operation in it.
  function Single(op: Op, revision: nat, artifacts: map<string, Artifact>): Tables {
    Tables(map[op.id := ToRecord(op).(revision := revision)], map[op.key := op.id], artifacts)
  }

  lemma SingleLoad(op: Op, revision: nat, artifacts: map<string, Artifact>)
    ensures !Terminal(op.state) ==> CurrentLoad(Single(op, revision, artifacts)) == Load(1, 0)
  {
    var t := Single(op, revision, artifacts);
    LoadCountsActive(t);
    if !Terminal(op.state) {
      assert Active(t) == {op.id};
    }
  }

  lemma EmptyLoad()
    ensures CurrentLoad(EMPTY) == Load(0, 0)
  {
    LoadCountsActive(EMPTY);
    assert Active(EMPTY) == {};
  }

  lemma SingleUpdate(op: Op, next: Op, revision: nat, artifacts: map<string, Artifact>)
    requires next.id == op.id && next.key == op.key && next.manifest == op.manifest
    ensures Update(Single(op, revision, artifacts), ToRecord(next), revision).Success?
    ensures AfterUpdate(Single(op, revision, artifacts), ToRecord(next), revision)
      == Single(next, revision + 1, artifacts)
  {
    var t := Single(op, revision, artifacts);
    assert t.operations[next.id := ToRecord(next).(revision := revision + 1)]
      == Single(next, revision + 1, artifacts).operations;
  }

  function Submitted(id: string, r: Request): Shared {
    var op := FirstOp(id, r);
    Shared(Single(op, 1, map[]), L.Ledger(0, map[]), map[id := r], [EventOf(op)], true, true, true)
  }

  lemma SubmitMoves(e: Settings, id: string, r: Request, receipt: CommitReceipt, c: Choice)
    requires Workable(e, r, receipt) && id != "" && c.id == id && c.ok
    ensures var op, w := FirstOp(id, r), INITIAL.shared;
      var created := w.(tables := Single(op, 1, map[]));
      var stored := created.(requests := map[id := r]);
      && Moves(e, w, Admitting(r), c, w, Creating(r))
      && Moves(e, w, Creating(r), c, created, Storing(op, r))
      && Moves(e, created, Storing(op, r), c, stored, Accepting(op))
      && Moves(e, stored, Accepting(op), c, Submitted(id, r), Gone)
  {
    hide Decide, ValidRequest, CurrentLoad, MergeYields, StartMove, FinishMove, CancelMove;
    EmptyLoad();
    var op, w := FirstOp(id, r), INITIAL.shared;
    assert r.key != "" by { ValidKey(r); }
    assert AfterCreate(EMPTY, ToRecord(op)) == Single(op, 1, map[]) by {
      assert EMPTY.operations[id := ToRecord(op).(revision := 1)] == Single(op, 1, map[]).operations;
      assert EMPTY.idempotency[r.key := id] == Single(op, 1, map[]).idempotency;
    }
    assert w.requests[id := r] == map[id := r];
    assert w.journal + [EventOf(op)] == [EventOf(op)];
  }

  lemma ValidKey(r: Request)
    requires ValidRequest(r)
    ensures r.key != ""
  {
  }

  // The shared state once the operation has been started and its event written.
  function Begun(e: Settings, id: string, r: Request, now: int): Shared {
    var op, lease := RunningOp(e, id, r, now), FirstLease(e, r, now);
    Shared(
      Single(op, 2, map[]), L.Ledger(1, map[Resource(r.manifest) := lease]), map[id := r],
      [EventOf(FirstOp(id, r)), EventOf(op)], true, true, true)
  }

  // Submitted, with the lease of the first Start in the ledger.
  function Leased(e: Settings, id: string, r: Request, now: int): Shared {
    Submitted(id, r).(ledger := L.Ledger(1, map[Resource(r.manifest) := FirstLease(e, r, now)]))
  }

  lemma ReadMoves(e: Settings, id: string, r: Request, receipt: CommitReceipt, c: Choice)
    requires Workable(e, r, receipt) && id != "" && c.ok
    ensures var op, lease, w := FirstOp(id, r), FirstLease(e, r, c.now), Submitted(id, r);
      && Moves(e, w, Looking(id), c, w, Leasing(op, 1))
      && Moves(e, w, Leasing(op, 1), c, Leased(e, id, r, c.now), Reading(op, 1, lease))
      && Moves(e, Leased(e, id, r, c.now), Reading(op, 1, lease), c,
               Leased(e, id, r, c.now), Starting(op, 1, lease, 1))
  {
    hide Decide, ValidRequest, MergeYields, SubmitMove, CancelMove, FinishMove, Update, AfterUpdate, Resource;
    GetSingle(FirstOp(id, r), r);
    FirstGrant(e, r, c.now);
    hide L.After, L.Acquired;
  }

  lemma StartMoves(e: Settings, id: string, r: Request, receipt: CommitReceipt, c: Choice)
    requires Workable(e, r, receipt) && id != "" && c.ok
    ensures var op, lease, w := FirstOp(id, r), FirstLease(e, r, c.now), Leased(e, id, r, c.now);
      var running := RunningOp(e, id, r, c.now);
      var swapped := Operations.Swap(w, running, 1, 1, true);
      && Moves(e, w, Starting(op, 1, lease, 1), c, swapped, Noting(running, lease, 2))
      && Moves(e, swapped, Noting(running, lease, 2), c, Begun(e, id, r, c.now), Judging(running, lease, 2))
  {
    hide Decide, ValidRequest, MergeYields, SubmitMove, CancelMove, Update, AfterUpdate, Resource, L.After, L.Acquired;
    var op := FirstOp(id, r);
    SingleUpdate(op, RunningOp(e, id, r, c.now), 1, map[]);
    assert [EventOf(op)] + [EventOf(RunningOp(e, id, r, c.now))] == [EventOf(op), EventOf(RunningOp(e, id, r, c.now))];
  }

  lemma GetSingle(op: Op, r: Request)
    requires op == FirstOp(op.id, r)
    ensures Get(Submitted(op.id, r), op.id) == Some(op)
  {
  }

  lemma FirstGrant(e: Settings, r: Request, now: int)
    requires e.workerID != "" && e.ttl > 0
    ensures var call := L.Acquire(Resource(r.manifest), e.workerID, e.ttl, now);
      && L.Acquired(L.Ledger(0, map[]), call) == Success(FirstLease(e, r, now))
      && L.After(L.Ledger(0, map[]), call) == L.Ledger(1, map[Resource(r.manifest) := FirstLease(e, r, now)])
  {
    assert "merge/" != "";
    assert |Resource(r.manifest)| >= 6;
    assert map[][Resource(r.manifest) := FirstLease(e, r, now)] == map[Resource(r.manifest) := FirstLease(e, r, now)];
  }

  // Submit, and a Start up to its swap: thread 0 is done.
  lemma RunsUpToStarting(e: Settings, id: string, r: Request, receipt: CommitReceipt, c: Choice) returns (s: State)
    requires Workable(e, r, receipt) && id != "" && c.id == id && c.ok
    ensures Reached(e, s) && s.shared == Leased(e, id, r, c.now)
    ensures s.threads == [Gone, Starting(FirstOp(id, r), 1, FirstLease(e, r, c.now), 1)]
  {
    hide Moves, Workable, Reached, Leased, Submitted, Single, FirstLease;
    s := RunsSubmit(e, id, r, receipt, c);
    ReadMoves(e, id, r, receipt, c);
    var op, lease, leased := FirstOp(id, r), FirstLease(e, r, c.now), Leased(e, id, r, c.now);
    s := Arrives(e, s, Looking(id));
    s := Go(e, s, 1, c, Submitted(id, r), Leasing(op, 1));
    s := Go(e, s, 1, c, leased, Reading(op, 1, lease));
    s := Go(e, s, 1, c, leased, Starting(op, 1, lease, 1));
  }

  lemma RunsSubmit(e: Settings, id: string, r: Request, receipt: CommitReceipt, c: Choice) returns (s: State)
    requires Workable(e, r, receipt) && id != "" && c.id == id && c.ok
    ensures Reached(e, s) && s.shared == Submitted(id, r) && s.threads == [Gone]
  {
    hide Moves, Workable, Reached, Submitted, Single;
    SubmitMoves(e, id, r, receipt, c);
    var op, w := FirstOp(id, r), INITIAL.shared;
    var created := w.(tables := Single(op, 1, map[]));
    var stored := created.(requests := map[id := r]);
    ReachedFirst(e);
    s := Arrives(e, INITIAL, Admitting(r));
    s := Go(e, s, 0, c, w, Creating(r));
    s := Go(e, s, 0, c, created, Storing(op, r));
    s := Go(e, s, 0, c, stored, Accepting(op));
    s := Go(e, s, 0, c, Submitted(id, r), Gone);
  }

  // Submit and Start, one after the other: thread 1 is about to merge.
  lemma RunsUpToMerging(e: Settings, id: string, r: Request, receipt: CommitReceipt, c: Choice) returns (s: State)
    requires Workable(e, r, receipt) && id != "" && c.id == id && c.ok
    ensures Reached(e, s) && s.shared == Begun(e, id, r, c.now)
    ensures s.threads == [Gone, Judging(RunningOp(e, id, r, c.now), FirstLease(e, r, c.now), 2)]
  {
    hide Moves, Workable, Reached, Begun, Leased, Operations.Swap, FirstLease, RunningOp;
    s := RunsUpToStarting(e, id, r, receipt, c);
    StartMoves(e, id, r, receipt, c);
    var lease, leased, running := FirstLease(e, r, c.now), Leased(e, id, r, c.now), RunningOp(e, id, r, c.now);
    s := Go(e, s, 1, c, Operations.Swap(leased, running, 1, 1, true), Noting(running, lease, 2));
    s := Go(e, s, 1, c, Begun(e, id, r, c.now), Judging(running, lease, 2));
  }

  // ---------- The merge ends and its result is published ----------

  // Whatever the ledger has become in the meantime.
  function WithArtifact(
    e: Settings, id: string, r: Request, now: int, receipt: CommitReceipt, ledger: L.Ledger): Shared
  {
    var done := DoneOp(e, id, r, now, receipt);
    Begun(e, id, r, now).(
      tables := Single(done, 3, map[receipt.fileID := Artifact(receipt, id)]), ledger := ledger)
  }

  // Completed in the catalog, not published yet.
  function CompletedOnly(
    e: Settings, id: string, r: Request, now: int, receipt: CommitReceipt, ledger: L.Ledger): Shared
  {
    Begun(e, id, r, now).(tables := Single(DoneOp(e, id, r, now, receipt), 3, map[]), ledger := ledger)
  }

  lemma MergeMoves(e: Settings, id: string, r: Request, receipt: CommitReceipt, c: Choice, now: int, ledger: L.Ledger)
    requires Workable(e, r, receipt) && c.outcome == Merged(receipt)
    ensures var running, lease := RunningOp(e, id, r, now), FirstLease(e, r, now);
      var w := Begun(e, id, r, now).(ledger := ledger);
      && Moves(e, w, Judging(running, lease, 2), c, w, Merging(running, lease, 2))
      && Moves(e, w, Merging(running, lease, 2), c, w, Completing(running, lease, 2, receipt))
  {
    hide Decide, ValidRequest, CurrentLoad, MergeYields, SubmitMove, StartMove, CancelMove, Update, AfterUpdate;
    hide Resource, EventOf, ToRecord, L.After;
    SingleLoad(RunningOp(e, id, r, now), 2, map[]);
  }

  lemma PublishMoves(e: Settings, id: string, r: Request, receipt: CommitReceipt, c: Choice, now: int, ledger: L.Ledger)
    requires Workable(e, r, receipt) && id != ""
    ensures var running, done := RunningOp(e, id, r, now), DoneOp(e, id, r, now, receipt);
      var lease, w := FirstLease(e, r, now), Begun(e, id, r, now).(ledger := ledger);
      && Moves(e, w, Completing(running, lease, 2, receipt), c,
               CompletedOnly(e, id, r, now, receipt, ledger), Publishing(done, lease, receipt))
      && Moves(e, CompletedOnly(e, id, r, now, receipt, ledger), Publishing(done, lease, receipt), c,
               WithArtifact(e, id, r, now, receipt, ledger), Concluding(done, Some(lease)))
  {
    hide Workable, MergeYields, SubmitMove, StartMove, CancelMove, Update, AfterUpdate, Resource, EventOf, L.After;
    var running, done := RunningOp(e, id, r, now), DoneOp(e, id, r, now, receipt);
    SingleUpdate(running, done, 2, map[]);
    WorkableNames(e, r, receipt);
    hide ToRecord;
    assert map[][receipt.fileID := Artifact(receipt, id)] == map[receipt.fileID := Artifact(receipt, id)];
  }

  lemma WorkableNames(e: Settings, r: Request, receipt: CommitReceipt)
    requires Workable(e, r, receipt)
    ensures receipt.fileID != "" && e.ttl > 0
  {
  }

  // From a running operation, with any ledger, to the stored artifact.
  lemma RunsToArtifact(e: Settings, s: State, id: string, r: Request, receipt: CommitReceipt, c: Choice, now: int)
    returns (z: State)
    requires Workable(e, r, receipt) && id != "" && c.outcome == Merged(receipt)
    requires Reached(e, s) && |s.threads| > 1 && s.shared == Begun(e, id, r, now).(ledger := s.shared.ledger)
    requires s.threads[1] == Judging(RunningOp(e, id, r, now), FirstLease(e, r, now), 2)
    ensures Reached(e, z) && z.shared == WithArtifact(e, id, r, now, receipt, s.shared.ledger)
    ensures z.threads ==
      s.threads[1 := Concluding(DoneOp(e, id, r, now, receipt), Some(FirstLease(e, r, now)))]
  {
    hide Moves, Workable, Reached, Begun, CompletedOnly, WithArtifact, Single, FirstLease, RunningOp, DoneOp;
    var ledger, lease := s.shared.ledger, FirstLease(e, r, now);
    var w, running, done := s.shared, RunningOp(e, id, r, now), DoneOp(e, id, r, now, receipt);
    MergeMoves(e, id, r, receipt, c, now, ledger);
    PublishMoves(e, id, r, receipt, c, now, ledger);
    z := Go(e, s, 1, c, w, Merging(running, lease, 2));
    z := Go(e, z, 1, c, w, Completing(running, lease, 2, receipt));
    z := Go(e, z, 1, c, CompletedOnly(e, id, r, now, receipt, ledger), Publishing(done, lease, receipt));
    z := Go(e, z, 1, c, WithArtifact(e, id, r, now, receipt, ledger), Concluding(done, Some(lease)));
  }

  // ---------- A worker whose lease was replaced publishes ----------

  // The lease expires while the run is under way and another owner acquires it
  // under a higher fence; the run then completes and its artifact is stored.
  lemma LostLeasePublishes(e: Settings, id: string, r: Request, receipt: CommitReceipt, c: Choice, other: string)
    returns (s: State)
    requires Workable(e, r, receipt) && id != "" && c.id == id && c.ok && c.outcome == Merged(receipt) && other != ""
    ensures Reached(e, s) && s.shared.tight
    ensures var t, leases := s.shared.tables, s.shared.ledger.leases;
      && id in t.operations && t.operations[id].state.Completed? && t.operations[id].fence == 1
      && receipt.fileID in t.artifacts && t.artifacts[receipt.fileID] == Artifact(receipt, id)
      && Resource(r.manifest) in leases
      && leases[Resource(r.manifest)].fence == 2 && leases[Resource(r.manifest)].owner == other
  {
    hide Workable, Reached, Moves, WithArtifact, Single, RunningOp, Resource, L.After;
    s := RunsUpToMerging(e, id, r, receipt, c);
    var z := ReachedCall(e, s, L.Acquire(Resource(r.manifest), other, e.ttl, c.now + e.ttl));
    WorkableNames(e, r, receipt);
    SecondGrant(e, r, c.now, other);
    assert z.shared == Begun(e, id, r, c.now).(ledger := z.shared.ledger);
    hide Begun, FirstLease;
    s := RunsToArtifact(e, z, id, r, receipt, c, c.now);
    ArtifactFacts(e, id, r, c.now, receipt, z.shared.ledger);
  }

  lemma ArtifactFacts(e: Settings, id: string, r: Request, now: int, receipt: CommitReceipt, ledger: L.Ledger)
    ensures var w := WithArtifact(e, id, r, now, receipt, ledger);
      && w.tight && w.ledger == ledger && w.endsKept
      && id in w.tables.operations && w.tables.operations[id].state.Completed? && w.tables.operations[id].fence == 1
      && receipt.fileID in w.tables.artifacts && w.tables.artifacts[receipt.fileID] == Artifact(receipt, id)
  {
  }

  lemma ReachedCall(e: Settings, s: State, call: L.Call) returns (z: State)
    requires Reached(e, s)
    ensures Reached(e, z) && z.threads == s.threads
    ensures z.shared == s.shared.(ledger := L.After(s.shared.ledger, call))
  {
    ReachedStep(e, s, LeaseCall(call));
    z := Apply(e, s, LeaseCall(call));
  }

  lemma SecondGrant(e: Settings, r: Request, now: int, other: string)
    requires e.ttl > 0 && other != ""
    ensures var ledger := L.Ledger(1, map[Resource(r.manifest) := FirstLease(e, r, now)]);
      var after := L.After(ledger, L.Acquire(Resource(r.manifest), other, e.ttl, now + e.ttl));
      && Resource(r.manifest) in after.leases
      && after.leases[Resource(r.manifest)].fence == 2 && after.leases[Resource(r.manifest)].owner == other
  {
    assert |Resource(r.manifest)| >= 6;
  }

  // ---------- A Cancel replaces a completed operation ----------

  function CancelledOp(e: Settings, id: string, r: Request, now: int): Op {
    RunningOp(e, id, r, now).(state := OpState.Cancelled)
  }

  // The Cancel read the running operation before the run completed it.
  lemma CancelReadMoves(e: Settings, id: string, r: Request, c: Choice, now: int)
    requires c.ok
    ensures Moves(e, Begun(e, id, r, now), CancelLooking(id), c,
                  Begun(e, id, r, now), CancelReading(RunningOp(e, id, r, now), 2))
  {
  }

  // What it does after the completion is reported: it reads the new revision, swaps and reports.
  lemma CancelSwapMoves(e: Settings, id: string, r: Request, receipt: CommitReceipt, c: Choice, now: int, w: Shared)
    requires c.ok && w == Reported(WithArtifact(e, id, r, now, receipt, w.ledger), DoneOp(e, id, r, now, receipt))
    ensures var running, cancelled := RunningOp(e, id, r, now), CancelledOp(e, id, r, now);
      var swapped := Operations.Swap(w, cancelled, 2, 3, e.limits.maxAttempts > 1);
      && Moves(e, w, CancelReading(running, 2), c, w, Cancelling(running, 2, 3))
      && Moves(e, w, Cancelling(running, 2, 3), c, swapped, Concluding(cancelled, None))
      && Reported(swapped, cancelled).tables == Single(cancelled, 4, map[receipt.fileID := Artifact(receipt, id)])
      && !Reported(swapped, cancelled).endsKept
  {
    hide SubmitMove, StartMove, Update, AfterUpdate, EventOf, Resource, L.After, L.Acquired, Admits, AfterPut, PutError;
    SingleUpdate(
      DoneOp(e, id, r, now, receipt), CancelledOp(e, id, r, now), 3, map[receipt.fileID := Artifact(receipt, id)]);
  }

  lemma CancelReportMoves(e: Settings, w: Shared, op: Op, c: Choice)
    requires c.ok
    ensures Moves(e, w, Concluding(op, None), c, Reported(w, op), Gone)
  {
    hide SubmitMove, StartMove, CancelMove, EventOf;
  }

  function Reported(w: Shared, op: Op): Shared {
    w.(journal := w.journal + [EventOf(op)])
  }

  // Cancel reads a running operation; the run completes it and stores its
  // artifact; Cancel then reads the new revision and swaps. The artifact names a
  // cancelled operation, which has reported two outcomes. If attempts remain,
  // state, attempt and revision still look in order.
  lemma CancelReplacesCompleted(e: Settings, id: string, r: Request, receipt: CommitReceipt, c: Choice)
    returns (s: State)
    requires Workable(e, r, receipt) && id != "" && c.id == id && c.ok && c.outcome == Merged(receipt)
    ensures Reached(e, s) && !s.shared.endsKept
    ensures var t := s.shared.tables;
      && id in t.operations && t.operations[id].state.Cancelled?
      && receipt.fileID in t.artifacts && t.artifacts[receipt.fileID] == Artifact(receipt, id)
      && !CompletedWith(t, id, receipt)
      && Outcomes(s.shared.journal, id) == 2
      && (e.limits.maxAttempts > 1 ==> LifecycleOk(t.operations[id], e.limits.maxAttempts))
  {
    hide Workable, Reached, Moves, Begun, WithArtifact, Single, RunningOp, DoneOp, FirstLease, CancelledOp, Reported;
    hide Operations.Swap, Outcomes, CompletedWith, LifecycleOk;
    s := RunsUpToMerging(e, id, r, receipt, c);
    var running, done, lease := RunningOp(e, id, r, c.now), DoneOp(e, id, r, c.now, receipt), FirstLease(e, r, c.now);
    var begun := s.shared;
    CancelReadMoves(e, id, r, c, c.now);
    s := Arrives(e, s, CancelLooking(id));
    s := Go(e, s, 2, c, begun, CancelReading(running, 2));
    s := RunsToArtifact(e, s, id, r, receipt, c, c.now);
    ReportMoves(e, s.shared, done, lease, c);
    var w := Reported(s.shared, done);
    s := Go(e, s, 1, c, w, Leaving(lease));
    ArtifactLedger(e, id, r, c.now, receipt, begun.ledger);
    CancelSwapMoves(e, id, r, receipt, c, c.now, w);
    var cancelled := CancelledOp(e, id, r, c.now);
    var swapped := Operations.Swap(w, cancelled, 2, 3, e.limits.maxAttempts > 1);
    s := Go(e, s, 2, c, w, Cancelling(running, 2, 3));
    s := Go(e, s, 2, c, swapped, Concluding(cancelled, None));
    CancelReportMoves(e, swapped, cancelled, c);
    s := Go(e, s, 2, c, Reported(swapped, cancelled), Gone);
    OverwrittenFacts(e, id, r, c.now, receipt, begun.ledger);
  }

  lemma ArtifactLedger(e: Settings, id: string, r: Request, now: int, receipt: CommitReceipt, ledger: L.Ledger)
    ensures Reported(WithArtifact(e, id, r, now, receipt, ledger), DoneOp(e, id, r, now, receipt)).ledger == ledger
  {
  }

  lemma ReportMoves(e: Settings, w: Shared, op: Op, lease: L.Lease, c: Choice)
    requires c.ok
    ensures Moves(e, w, Concluding(op, Some(lease)), c, Reported(w, op), Leaving(lease))
  {
    hide SubmitMove, StartMove, CancelMove, EventOf;
  }

  lemma OverwrittenFacts(e: Settings, id: string, r: Request, now: int, receipt: CommitReceipt, ledger: L.Ledger)
    ensures var done, cancelled := DoneOp(e, id, r, now, receipt), CancelledOp(e, id, r, now);
      var w := Reported(WithArtifact(e, id, r, now, receipt, ledger), done);
      var v := Reported(Operations.Swap(w, cancelled, 2, 3, e.limits.maxAttempts > 1), cancelled);
      && Outcomes(v.journal, id) == 2
      && (v.tables == Single(cancelled, 4, map[receipt.fileID := Artifact(receipt, id)]) ==>
            && id in v.tables.operations && v.tables.operations[id].state.Cancelled?
            && receipt.fileID in v.tables.artifacts && v.tables.artifacts[receipt.fileID] == Artifact(receipt, id)
            && !CompletedWith(v.tables, id, receipt)
            && (e.limits.maxAttempts > 1 ==> LifecycleOk(v.tables.operations[id], e.limits.maxAttempts)))
  {
    var running, done := RunningOp(e, id, r, now), DoneOp(e, id, r, now, receipt);
    var cancelled := CancelledOp(e, id, r, now);
    var w := Reported(WithArtifact(e, id, r, now, receipt, ledger), done);
    var v := Reported(Operations.Swap(w, cancelled, 2, 3, e.limits.maxAttempts > 1), cancelled);
    hide AfterUpdate;
    CountTwo(id, EventOf(FirstOp(id, r)), EventOf(running), EventOf(done), EventOf(cancelled));
    assert v.journal == [EventOf(FirstOp(id, r)), EventOf(running), EventOf(done), EventOf(cancelled)];
  }

  lemma CountTwo(id: string, a: Event, b: Event, c: Event, d: Event)
    requires !Reports(a, id) && !Reports(b, id) && Reports(c, id) && Reports(d, id)
    ensures Outcomes([a, b, c, d], id) == 2
  {
    assert Outcomes([], id) == 0;
    OutcomesMore([], a, id);
    OutcomesMore([a], b, id);
    OutcomesMore([a, b], c, id);
    OutcomesMore([a, b, c], d, id);
    assert [] + [a] == [a] && [a] + [b] == [a, b] && [a, b] + [c] == [a, b, c] && [a, b, c] + [d] == [a, b, c, d];
  }

  // ---------- A Cancel that breaks the law ----------

  lemma CancelReadsAccepted(e: Settings, id: string, r: Request, c: Choice)
    requires c.ok
    ensures Moves(e, Leased(e, id, r, c.now), CancelLooking(id), c,
                  Leased(e, id, r, c.now), CancelReading(FirstOp(id, r), 1))
  {
    hide SubmitMove, StartMove, FinishMove, Resource, FirstLease;
  }

  // After the Start's swap it reads revision 2 and stores attempt 0 at revision 3.
  lemma StaleCancelMoves(e: Settings, id: string, r: Request, c: Choice, w: Shared)
    requires w.tables == Single(RunningOp(e, id, r, c.now), 2, map[])
    ensures var op := FirstOp(id, r);
      var cancelled := op.(state := OpState.Cancelled);
      var swapped := Operations.Swap(w, cancelled, 1, 2, false);
      && Moves(e, w, CancelReading(op, 1), c, w, Cancelling(op, 1, 2))
      && Moves(e, w, Cancelling(op, 1, 2), c, swapped, Concluding(cancelled, None))
      && swapped.tables == Single(cancelled, 3, map[])
  {
    hide SubmitMove, StartMove, FinishMove, Update, AfterUpdate, Resource;
    SingleUpdate(RunningOp(e, id, r, c.now), FirstOp(id, r).(state := OpState.Cancelled), 2, map[]);
  }

  // Cancel reads an accepted operation, a Start makes it running, and Cancel
  // swaps: a cancelled record whose attempt and revision no intended history
  // gives. Nothing that had ended was replaced.
  lemma StaleCancelBreaksLaw(e: Settings, id: string, r: Request, receipt: CommitReceipt, c: Choice)
    returns (s: State)
    requires Workable(e, r, receipt) && id != "" && c.id == id && c.ok
    ensures Reached(e, s) && s.shared.endsKept && !s.shared.lawful
    ensures id in s.shared.tables.operations
    ensures var record := s.shared.tables.operations[id];
      && record.state.Cancelled? && record.attempt == 0 && record.revision == 3
      && !LifecycleOk(record, e.limits.maxAttempts)
  {
    hide Moves, Workable, Reached, RunningOp, FirstLease;
    s := RunsUpToStarting(e, id, r, receipt, c);
    CancelReadsAccepted(e, id, r, c);
    StartMoves(e, id, r, receipt, c);
    SwapTables(e, id, r, c.now);
    var op, lease, leased, running :=
      FirstOp(id, r), FirstLease(e, r, c.now), Leased(e, id, r, c.now), RunningOp(e, id, r, c.now);
    var w := Operations.Swap(leased, running, 1, 1, true);
    var cancelled := op.(state := OpState.Cancelled);
    hide Leased, Operations.Swap;
    s := Arrives(e, s, CancelLooking(id));
    s := Go(e, s, 2, c, leased, CancelReading(op, 1));
    s := Go(e, s, 1, c, w, Noting(running, lease, 2));
    StaleCancelMoves(e, id, r, c, w);
    s := Go(e, s, 2, c, w, Cancelling(op, 1, 2));
    s := Go(e, s, 2, c, Operations.Swap(w, cancelled, 1, 2, false), Concluding(cancelled, None));
    StaleSwapHistory(w, cancelled);
  }

  lemma SwapTables(e: Settings, id: string, r: Request, now: int)
    ensures var w := Operations.Swap(Leased(e, id, r, now), RunningOp(e, id, r, now), 1, 1, true);
      w.tables == Single(RunningOp(e, id, r, now), 2, map[]) && w.endsKept && !Ended(w.tables, id)
  {
    hide Update, AfterUpdate, Resource;
    SingleUpdate(FirstOp(id, r), RunningOp(e, id, r, now), 1, map[]);
  }

  lemma StaleSwapHistory(w: Shared, op: Op)
    requires w.endsKept && !Ended(w.tables, op.id)
    ensures var v := Operations.Swap(w, op, 1, 2, false); v.endsKept && !v.lawful
  {
  }

  // ---------- A cancelled operation is started ----------

  // What a successful swap stores.
  lemma SwapStores(t: Tables, op: Op, revision: nat)
    requires op.id in t.operations && t.operations[op.id].revision == revision
    requires t.operations[op.id].fileID == op.manifest.fileID && t.operations[op.id].key == op.key
    ensures Update(t, ToRecord(op), revision).Success?
    ensures var u := AfterUpdate(t, ToRecord(op), revision);
      op.id in u.operations && u.operations[op.id] == ToRecord(op).(revision := revision + 1)
  {
  }

  // From any reached state so far in order: an accepted operation whose lease is
  // free can be cancelled between the two reads of a Start, and that Start then
  // sets it running again.
  lemma CancelledCanBeRevived(e: Settings, s: State, id: string, c: Choice) returns (middle: State, z: State)
    requires e.limits.Positive() && Reached(e, s) && s.shared.lawful && c.ok
    requires id in s.shared.tables.operations && id in s.shared.requests
    requires s.shared.tables.operations[id].state.Accepted?
    requires L.Acquired(
      s.shared.ledger, L.Acquire(Resource(s.shared.requests[id].manifest), e.workerID, e.ttl, c.now)).Success?
    ensures Reached(e, middle) && Ended(middle.shared.tables, id) && middle.shared.lawful
    ensures Reached(e, z) && id in z.shared.tables.operations && z.shared.tables.operations[id].state.Running?
    ensures !LifecycleOk(z.shared.tables.operations[id], e.limits.maxAttempts)
    ensures !z.shared.lawful && !z.shared.endsKept
  {
    hide L.Acquired, Moves, LifecycleOk, CatalogOk, Resource;
    ReachedInOrder(e, s, id);
    var w1, w2, w3, t1, t2, t3, t4, c1, c2, c3 := RevivalMoves(e, s.shared, id, c);
    hide Reached, Ended;
    var n := |s.threads|;
    z := Arrives(e, s, Looking(id));
    z := Go(e, z, n, c, s.shared, t1);
    z := Go(e, z, n, c, w1, t2);
    z := Arrives(e, z, CancelLooking(id));
    z := Go(e, z, n + 1, c, w1, c1);
    z := Go(e, z, n + 1, c, w1, c2);
    middle := Go(e, z, n + 1, c, w2, c3);
    z := Go(e, middle, n, c, w2, t3);
    z := Go(e, z, n, c, w3, t4);
  }

  // In particular a submitted request's, with nothing else going on.
  lemma ACancelledOperationRuns(e: Settings, id: string, r: Request, receipt: CommitReceipt, c: Choice)
    returns (middle: State, z: State)
    requires Workable(e, r, receipt) && id != "" && c.id == id && c.ok
    ensures Reached(e, middle) && Ended(middle.shared.tables, id)
    ensures Reached(e, z) && id in z.shared.tables.operations && z.shared.tables.operations[id].state.Running?
  {
    var s := RunsSubmit(e, id, r, receipt, c);
    FirstGrant(e, r, c.now);
    hide Reached, L.Acquired, Resource, ValidRequest, Decide, MergeYields;
    middle, z := CancelledCanBeRevived(e, s, id, c);
  }

  lemma ReachedInOrder(e: Settings, s: State, id: string)
    requires e.limits.Positive() && Reached(e, s) && s.shared.lawful && id in s.shared.tables.operations
    ensures CatalogOk(s.shared.tables, s.shared.requests)
    ensures LifecycleOk(s.shared.tables.operations[id], e.limits.maxAttempts)
  {
    var run :| IsRun(e, run) && run[|run| - 1] == s;
    OperationHistory.RunInv(e, run, |run| - 1);
  }

  // The steps of the two threads.
  lemma RevivalMoves(e: Settings, w: Shared, id: string, c: Choice)
    returns (w1: Shared, w2: Shared, w3: Shared,
             t1: Thread, t2: Thread, t3: Thread, t4: Thread, c1: Thread, c2: Thread, c3: Thread)
    requires id in w.tables.operations && id in w.requests && c.ok
    requires CatalogOk(w.tables, w.requests) && LifecycleOk(w.tables.operations[id], e.limits.maxAttempts)
    requires w.tables.operations[id].state.Accepted?
    requires L.Acquired(w.ledger, L.Acquire(Resource(w.requests[id].manifest), e.workerID, e.ttl, c.now)).Success?
    // the Start reads the operation and takes its lease
    ensures Moves(e, w, Looking(id), c, w, t1) && Moves(e, w, t1, c, w1, t2)
    // the Cancel reads it, reads its revision and cancels it
    ensures Moves(e, w1, CancelLooking(id), c, w1, c1) && Moves(e, w1, c1, c, w1, c2) && Moves(e, w1, c2, c, w2, c3)
    ensures Ended(w2.tables, id) && w2.lawful == w.lawful
    // the Start reads the new revision and swaps
    ensures Moves(e, w2, t2, c, w2, t3) && Moves(e, w2, t3, c, w3, t4)
    ensures id in w3.tables.operations && w3.tables.operations[id].state.Running?
    ensures !LifecycleOk(w3.tables.operations[id], e.limits.maxAttempts) && !w3.lawful && !w3.endsKept
  {
    var r := w.tables.operations[id];
    assert r.id == id && r.attempt == 0 && r.revision == 1;
    GotRecord(w, id);
    hide Move, Allowed, Moves, L.Acquired, CatalogOk, LifecycleOk;
    w1, t1, t2 := ReadToStart(e, w, id, c);
    c1, c2 := ReadToCancel(e, w1, id, c);
    w2, c3 := CancelNow(e, w1, c2, c);
    t3, w3, t4 := StartNow(e, w2, t2, c);
    BrokenLifecycle(w3.tables.operations[id], e.limits.maxAttempts);
  }

  lemma BrokenLifecycle(r: Record, limit: int)
    requires r.state.Running? && r.attempt == 1 && r.revision == 3
    ensures !LifecycleOk(r, limit)
  {
  }

  lemma CancelNow(e: Settings, w: Shared, t: Thread, c: Choice) returns (v: Shared, u: Thread)
    requires t.Cancelling? && t.op.id in w.tables.operations
    requires w.tables.operations[t.op.id] == ToRecord(t.op).(revision := t.revision) && t.seen == t.revision
    ensures Moves(e, w, t, c, v, u) && v.requests == w.requests && t.op.id in v.tables.operations
    ensures v.lawful == w.lawful
    ensures v.tables.operations[t.op.id] ==
      ToRecord(t.op.(state := OpState.Cancelled)).(revision := t.revision + 1)
  {
    hide Update, AfterUpdate;
    SwapStores(w.tables, t.op.(state := OpState.Cancelled), t.revision);
    var (v', u') := Move(e, w, t, c);
    v, u := v', u';
  }

  lemma StartNow(e: Settings, w: Shared, t: Thread, c: Choice) returns (t': Thread, v: Shared, u: Thread)
    requires t.Reading? && t.op.id in w.tables.operations
    requires w.tables.operations[t.op.id].fileID == t.op.manifest.fileID
    requires w.tables.operations[t.op.id].key == t.op.key && w.tables.operations[t.op.id].revision != t.seen
    ensures Moves(e, w, t, c, w, t') && Moves(e, w, t', c, v, u) && t.op.id in v.tables.operations
    ensures !v.lawful && (Ended(w.tables, t.op.id) ==> !v.endsKept)
    ensures var r := v.tables.operations[t.op.id];
      && r.state.Running? && r.attempt == t.op.attempt + 1
      && r.revision == w.tables.operations[t.op.id].revision + 1
  {
    hide Update, AfterUpdate;
    t' := Move(e, w, t, c).1;
    SwapStores(w.tables, Started(t.op, t.lease), w.tables.operations[t.op.id].revision);
    var (v', u') := Move(e, w, t', c);
    v, u := v', u';
  }

  lemma ReadToStart(e: Settings, w: Shared, id: string, c: Choice) returns (w1: Shared, t1: Thread, t2: Thread)
    requires id in w.tables.operations && id in w.requests && c.ok && w.tables.operations[id].id == id
    requires w.tables.operations[id].state.Accepted?
    requires L.Acquired(w.ledger, L.Acquire(Resource(w.requests[id].manifest), e.workerID, e.ttl, c.now)).Success?
    ensures Moves(e, w, Looking(id), c, w, t1) && Moves(e, w, t1, c, w1, t2)
    ensures t2.Reading? && t2.op == FromRecord(w.tables.operations[id], w.requests[id].manifest)
    ensures t2.seen == w.tables.operations[id].revision
    ensures w1.tables == w.tables && w1.requests == w.requests && w1.lawful == w.lawful
  {
    hide SubmitMove, CancelMove, FinishMove, L.After, L.Acquired, Resource, Update, AfterUpdate, MergeYields;
    t1 := Move(e, w, Looking(id), c).1;
    var (v, u) := Move(e, w, t1, c);
    w1, t2 := v, u;
  }

  lemma ReadToCancel(e: Settings, w: Shared, id: string, c: Choice) returns (c1: Thread, c2: Thread)
    requires id in w.tables.operations && id in w.requests && c.ok && w.tables.operations[id].id == id
    requires w.tables.operations[id].state.Accepted?
    ensures Moves(e, w, CancelLooking(id), c, w, c1) && Moves(e, w, c1, c, w, c2)
    ensures c2 == Cancelling(FromRecord(w.tables.operations[id], w.requests[id].manifest),
      w.tables.operations[id].revision, w.tables.operations[id].revision)
  {
    hide SubmitMove, StartMove, FinishMove, Update, AfterUpdate, MergeYields;
    c1 := Move(e, w, CancelLooking(id), c).1;
    c2 := Move(e, w, c1, c).1;
  }

  // ---------- Such requests exist ----------

  const TINY_SETTINGS_LIMITS := Limits(2, 3, 3, 3, 2, 1, 1)

  // Whatever the digest function.
  lemma AWorkableRequestExists(env: Loading.Env) returns (e: Settings, r: Request, receipt: CommitReceipt)
    requires Loading.DigestsAreHex(env)
    ensures e.env == env && e.limits.maxAttempts > 1 && Workable(e, r, receipt)
  {
    hide ValidRequest, Decide, MergeYields, Tiny;
    e := Settings(env, TINY_SETTINGS_LIMITS, "worker-1", 1);
    r := Request(Tiny(env), TINY_SOURCE, "key");
    receipt := TinyYields(env);
    TinyIsAdmitted(env);
    TinyIsValid(env);
    assert |e.workerID| == 8;
  }

  lemma TinyYields(env: Loading.Env) returns (receipt: CommitReceipt)
    requires Loading.DigestsAreHex(env)
    ensures MergeYields(env, Request(Tiny(env), TINY_SOURCE, "key"), receipt)
    ensures receipt.fileID != "" && Tiny(env).fileID != ""
  {
    hide Compiled, MergeOutput.Expected, MergeInvariant.ConfigOk, MergeOutput.AllLoad, TinySegment;
    TinyConfigOk(env);
    TinyCompiledName(env);
    receipt := MergeOutput.ExpectedReceipt(TinyConfig(env), MergeOutput.Expected(TinyConfig(env)));
  }

  lemma TinyCompiledName(env: Loading.Env)
    ensures Compiled(Tiny(env)).fileID != "" && Tiny(env).fileID != ""
  {
    hide TinyName, TinySegment, TrimSpace;
    TinyHeaderOk(env);
  }

  lemma TinyIsAdmitted(env: Loading.Env)
    ensures Decide(TINY_SETTINGS_LIMITS, Tiny(env), Load(0, 0)).allowed
    ensures Decide(TINY_SETTINGS_LIMITS, Tiny(env), Load(1, 0)).allowed
  {
    TinySizes(env);
    hide TinySegment, TinyName;
    var m := Tiny(env);
    forall s | s in m.segments ensures s.logicalSize > 0 && s.Weight() == 1 {
    }
    AdmissionMeansRoom(TINY_SETTINGS_LIMITS, m, Load(0, 0));
    AdmissionMeansRoom(TINY_SETTINGS_LIMITS, m, Load(1, 0));
  }

  lemma TinyIsValid(env: Loading.Env)
    requires Loading.DigestsAreHex(env)
    ensures ValidRequest(Request(Tiny(env), TINY_SOURCE, "key"))
  {
    TinyIsAcceptable(env);
    forall s | s in Tiny(env).segments ensures s.id in TINY_SOURCE && |TINY_SOURCE[s.id]| == s.storedSize as int {
    }
    hide Acceptable, TinySegment;
  }
}
