// Operations that stay running although nobody runs them: the journal did not
// take the event of their start, and no call but Cancel ever moves them on.
module Orphans {
  import opened Prelude
  import opened Manifests
  import opened Writers
  import opened Policies
  import opened Catalogs
  import opened Operations
  import opened Lifecycle
  import opened Endings
  import opened OperationHistory
  import opened OperationFailures
  import L = Leases

  // A run that may still store how this revision of the record ends.
  predicate Holds(t: Thread, id: string, revision: nat) {
    (t.Noting? || t.Judging? || t.Merging? || t.Completing? || t.Failing?) && t.op.id == id && t.revision == revision
  }

  // Stored as running, and no call in flight is going to end it.
  ghost predicate Orphaned(s: State, id: string) {
    && id in s.shared.tables.operations && s.shared.tables.operations[id].state.Running?
    && forall k :: 0 <= k < |s.threads| ==> !Holds(s.threads[k], id, s.shared.tables.operations[id].revision)
  }

  // What one step may do to the record.
  ghost predicate LeftOrCancelled(t: Tables, u: Tables, id: string)
    requires id in t.operations
  {
    && id in u.operations
    && (u.operations[id] == t.operations[id] || u.operations[id] == CancelledRecord(t.operations[id]))
  }

  function CancelledRecord(r: Record): Record {
    r.(state := OpState.Cancelled, revision := r.revision + 1)
  }

  ghost predicate LeavesOrphan(w: Shared, id: string, v: Shared, u: Thread)
    requires id in w.tables.operations
  {
    && LeftOrCancelled(w.tables, v.tables, id)
    && (v.tables.operations[id] == w.tables.operations[id] ==> !Holds(u, id, w.tables.operations[id].revision))
  }

  ghost predicate Orphan(e: Settings, w: Shared, id: string) {
    && id in w.tables.operations && w.tables.operations[id].state.Running?
    && LifecycleOk(w.tables.operations[id], e.limits.maxAttempts)
  }

  lemma MoveLeavesOrphan(e: Settings, w: Shared, t: Thread, c: Choice, id: string)
    requires Orphan(e, w, id) && ThreadOk(e, w, t) && ReadOk(e, t) && !Holds(t, id, w.tables.operations[id].revision)
    requires w.lawful && Move(e, w, t, c).0.lawful
    ensures var (v, u) := Move(e, w, t, c); LeavesOrphan(w, id, v, u)
  {
    hide SubmitMove, StartMove, FinishMove, CancelMove, ThreadOk, ReadOk, Holds, Orphan;
    OrphanStored(e, w, id);
    if Submits(t) {
      SubmitLeavesOrphan(e, w, t, c, id);
    } else if Starts(t) {
      StartLeavesOrphan(e, w, t, c, id);
    } else if Cancels(t) {
      CancelLeavesOrphan(e, w, t, c, id);
    } else {
      FinishLeavesOrphan(e, w, t, c, id);
    }
  }

  lemma OrphanStored(e: Settings, w: Shared, id: string)
    requires Orphan(e, w, id)
    ensures id in w.tables.operations
  {
  }

  // An update of another operation, or one that expects another revision.
  lemma UpdateAside(t: Tables, r: Record, expected: nat, id: string)
    requires id in t.operations && (r.id == id ==> t.operations[id].revision != expected)
    ensures var u := AfterUpdate(t, r, expected); id in u.operations && u.operations[id] == t.operations[id]
  {
  }

  lemma SubmitLeavesOrphan(e: Settings, w: Shared, t: Thread, c: Choice, id: string)
    requires Orphan(e, w, id) && Submits(t)
    ensures var (v, u) := SubmitMove(e, w, t, c); LeavesOrphan(w, id, v, u)
  {
    hide ValidRequest, Admits, AfterUpdate;
    if t.Undoing? {
      UpdateAside(w.tables, ToRecord(t.op.(state := Failed)), 1, id);
    }
  }

  lemma StartLeavesOrphan(e: Settings, w: Shared, t: Thread, c: Choice, id: string)
    requires Orphan(e, w, id) && Starts(t) && ThreadOk(e, w, t) && StartMove(e, w, t, c).0.lawful && w.lawful
    ensures var (v, u) := StartMove(e, w, t, c); LeavesOrphan(w, id, v, u)
  {
    hide AfterUpdate, Get, L.After, L.Acquired;
    if t.Starting? {
      assert Known(w, t.op, t.seen) && CanStart(t.op.state);
      var running := ToRecord(Started(t.op, t.lease));
      if t.op.id != id || w.tables.operations[id].revision != t.revision {
        UpdateAside(w.tables, running, t.revision, id);
      }
    }
  }

  lemma FinishLeavesOrphan(e: Settings, w: Shared, t: Thread, c: Choice, id: string)
    requires Orphan(e, w, id) && !Submits(t) && !Starts(t) && !Cancels(t)
    requires !Holds(t, id, w.tables.operations[id].revision)
    ensures var (v, u) := FinishMove(e, w, t, c); LeavesOrphan(w, id, v, u)
  {
    hide AfterUpdate, Admits, Retry, L.After, Update, EventOf, PutError;
    match t
    case Completing(op, _, revision, receipt) =>
      UpdateAside(w.tables, ToRecord(op.(state := Completed, result := Some(receipt))), revision, id);
    case Failing(op, _, revision, cause) =>
      UpdateAside(w.tables, ToRecord(AfterFailure(e, op, cause)), revision, id);
    case _ =>
  }

  lemma CancelLeavesOrphan(e: Settings, w: Shared, t: Thread, c: Choice, id: string)
    requires Orphan(e, w, id) && Cancels(t) && ThreadOk(e, w, t) && ReadOk(e, t)
    requires CancelMove(e, w, t, c).0.lawful && w.lawful
    ensures var (v, u) := CancelMove(e, w, t, c); LeavesOrphan(w, id, v, u)
  {
    hide Get;
    if t.Cancelling? {
      assert Known(w, t.op, t.seen);
      hide AfterUpdate;
      var cancelled := ToRecord(t.op.(state := OpState.Cancelled));
      if t.op.id != id || w.tables.operations[id].revision != t.revision {
        UpdateAside(w.tables, cancelled, t.revision, id);
      } else {
        CancelsOrphan(w.tables, t.op, t.revision);
      }
    }
  }

  lemma CancelsOrphan(t: Tables, op: Op, revision: nat)
    requires Snapshot(t, op, revision) && t.operations[op.id].revision == revision
    ensures var u := AfterUpdate(t, ToRecord(op.(state := OpState.Cancelled)), revision);
      op.id in u.operations && u.operations[op.id] == CancelledRecord(t.operations[op.id])
  {
  }

  lemma StepLeavesOrphan(e: Settings, s: State, z: State, id: string)
    requires Inv(e, s) && (exists a :: Enabled(e, s, a) && z == Apply(e, s, a))
    requires Orphaned(s, id) && s.shared.lawful && z.shared.lawful
    ensures LeftOrCancelled(s.shared.tables, z.shared.tables, id)
    ensures z.shared.tables.operations[id] == s.shared.tables.operations[id] ==> Orphaned(z, id)
  {
    hide Move, Allowed, Width, ThreadOk, ReadOk, Holds, LifecycleOk;
    var a :| Enabled(e, s, a) && z == Apply(e, s, a);
    match a
    case Go(k, c) =>
      assert ThreadOk(e, s.shared, s.threads[k]) && ReadOk(e, s.threads[k]);
      MoveLeavesOrphan(e, s.shared, s.threads[k], c, id);
    case Arrive(t) => ArrivesEmpty(t, id, s.shared.tables.operations[id].revision);
    case LeaseCall(_) =>
  }

  lemma ArrivesEmpty(t: Thread, id: string, revision: nat)
    requires t.Admitting? || t.Looking? || t.CancelLooking?
    ensures !Holds(t, id, revision)
  {
  }

  // Over whole runs that keep the law: an operation that is stored as running
  // with nobody to end it stays so, and counts as active, unless it is cancelled.
  lemma {:induction false} OrphanStays(e: Settings, run: seq<State>, i: nat, j: nat, id: string)
    requires IsRun(e, run) && e.limits.Positive() && i <= j < |run| && run[j].shared.lawful
    requires Orphaned(run[i], id)
    ensures id in run[j].shared.tables.operations
    ensures var r := run[i].shared.tables.operations[id];
      || (Orphaned(run[j], id) && run[j].shared.tables.operations[id] == r && id in Active(run[j].shared.tables))
      || exists k :: i < k <= j && id in run[k].shared.tables.operations
           && run[k].shared.tables.operations[id] == CancelledRecord(r)
  {
    hide Inv, Move, Apply, Enabled, CancelledRecord;
    if i < j {
      RunInv(e, run, j - 1);
      assert StepAt(e, run, j - 1);
      LawfulIff(e, run, j);
      LawfulIff(e, run, j - 1);
      OrphanStays(e, run, i, j - 1, id);
      NothingIsRewritten(e, run, i, j);
      if Orphaned(run[j - 1], id) && run[j - 1].shared.tables.operations[id] == run[i].shared.tables.operations[id] {
        StepLeavesOrphan(e, run[j - 1], run[j], id);
      }
    }
  }

  // Such an operation is reached by one Submit and one Run: the journal does not
  // take the started event, and Run returns without storing anything more.
  lemma AnOrphanIsReached(e: Settings, id: string, r: Request, receipt: CommitReceipt, c: Choice) returns (s: State)
    requires Workable(e, r, receipt) && id != "" && c.id == id && c.ok
    ensures Reached(e, s) && Orphaned(s, id) && s.shared.lawful && s.threads == [Gone, Gone]
  {
    hide Moves, Workable, Reached, Leased, Operations.Swap, FirstLease, RunningOp;
    s := RunsUpToStarting(e, id, r, receipt, c);
    StartMoves(e, id, r, receipt, c);
    var lease, leased, running := FirstLease(e, r, c.now), Leased(e, id, r, c.now), RunningOp(e, id, r, c.now);
    var swapped := Operations.Swap(leased, running, 1, 1, true);
    s := OperationFailures.Go(e, s, 1, c, swapped, Noting(running, lease, 2));
    GivesUp(e, swapped, running, lease, c);
    s := OperationFailures.Go(e, s, 1, c.(ok := false), swapped, Leaving(lease));
    var v := swapped.(ledger := L.After(swapped.ledger, L.Release(lease.resource, lease.owner, lease.fence)));
    s := OperationFailures.Go(e, s, 1, c, v, Gone);
    OrphanFacts(e, id, r, c.now, v);
  }

  lemma GivesUp(e: Settings, w: Shared, op: Op, lease: L.Lease, c: Choice)
    ensures Moves(e, w, Noting(op, lease, 2), c.(ok := false), w, Leaving(lease))
    ensures var v := w.(ledger := L.After(w.ledger, L.Release(lease.resource, lease.owner, lease.fence)));
      Moves(e, w, Leaving(lease), c, v, Gone)
  {
    hide L.After;
  }

  lemma OrphanFacts(e: Settings, id: string, r: Request, now: int, v: Shared)
    requires v.tables == Operations.Swap(Leased(e, id, r, now), RunningOp(e, id, r, now), 1, 1, true).tables
    requires v.lawful == Operations.Swap(Leased(e, id, r, now), RunningOp(e, id, r, now), 1, 1, true).lawful
    ensures v.lawful && id in v.tables.operations && v.tables.operations[id].state.Running?
  {
    SingleUpdate(FirstOp(id, r), RunningOp(e, id, r, now), 1, map[]);
    hide AfterUpdate;
  }
}
