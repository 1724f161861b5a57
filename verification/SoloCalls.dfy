// What each call of the operation service does from any state when no other
// call's step falls in between: the contract a sequential user sees, said of
// the stored records, the ledger and the journal themselves.
module SoloCalls {
  import opened Prelude
  import opened Manifests
  import opened Writers
  import opened Policies
  import opened Catalogs
  import opened Operations
  import opened Lifecycle
  import opened OperationFailures
  import L = Leases

  // What one call meets: the clock, a generated id, whether the context holds
  // when it looks, whether the journal takes its first and its last event, and
  // how its merge ends.
  datatype Luck = Luck(now: int, id: string, looks: bool, notes: bool, concludes: bool, outcome: MergeOutcome)

  function Chosen(l: Luck, t: Thread): Choice {
    var ok :=
      if t.Looking? || t.CancelLooking? then l.looks
      else if t.Noting? || t.Accepting? then l.notes else l.concludes;
    Choice(l.now, l.id, ok, l.outcome)
  }

  // Where a call is after n steps of its own and none of anybody else's.
  ghost function Alone(e: Settings, l: Luck, w: Shared, t: Thread, n: nat): (Shared, Thread) {
    if n == 0 then (w, t)
    else
      var (v, u) := Alone(e, l, w, t, n - 1);
      Move(e, v, u, Chosen(l, u))
  }

  ghost predicate Takes(e: Settings, l: Luck, w: Shared, t: Thread, n: nat, v: Shared, u: Thread) {
    Alone(e, l, w, t, n) == (v, u)
  }

  lemma OneStep(e: Settings, l: Luck, w: Shared, t: Thread, v: Shared, u: Thread)
    requires Move(e, w, t, Chosen(l, t)) == (v, u)
    ensures Takes(e, l, w, t, 1, v, u)
  {
    hide Move;
    assert Alone(e, l, w, t, 0) == (w, t);
  }

  lemma {:induction false} Then(
    e: Settings, l: Luck, w: Shared, t: Thread, m: nat, v: Shared, u: Thread, n: nat, x: Shared, y: Thread)
    requires Takes(e, l, w, t, m, v, u) && Takes(e, l, v, u, n, x, y)
    ensures Takes(e, l, w, t, m + n, x, y)
  {
    hide Move;
    if n > 0 {
      var (x', y') := Alone(e, l, v, u, n - 1);
      Then(e, l, w, t, m, v, u, n - 1, x', y');
    }
  }

  lemma {:induction false} StaysGone(e: Settings, l: Luck, w: Shared, n: nat)
    ensures Takes(e, l, w, Gone, n, w, Gone)
  {
    if n > 0 {
      StaysGone(e, l, w, n - 1);
      GoneStep(e, l, w);
      hide Move;
    }
  }

  lemma GoneStep(e: Settings, l: Luck, w: Shared)
    ensures Move(e, w, Gone, Chosen(l, Gone)) == (w, Gone)
  {
  }

  // A call that is over after m steps is over after any further ones.
  lemma Over(e: Settings, l: Luck, w: Shared, t: Thread, m: nat, v: Shared, n: nat)
    requires Takes(e, l, w, t, m, v, Gone) && m <= n
    ensures Takes(e, l, w, t, n, v, Gone)
  {
    hide Takes;
    StaysGone(e, l, v, n - m);
    Then(e, l, w, t, m, v, Gone, n - m, v, Gone);
  }

  // These steps are steps of the service: nothing is shown here of states it
  // does not reach.
  lemma {:induction false} SoloIsReached(e: Settings, l: Luck, s: State, k: nat, n: nat) returns (z: State, u: Thread)
    requires Reached(e, s) && k < |s.threads|
    requires forall m: nat :: m < n ==> AllowedAt(e, l, s.shared, s.threads[k], m)
    ensures Reached(e, z) && z.threads == s.threads[k := u]
    ensures Takes(e, l, s.shared, s.threads[k], n, z.shared, u)
  {
    hide Move, Reached, Allowed;
    if n == 0 {
      z, u := s, s.threads[k];
    } else {
      var y, t := SoloIsReached(e, l, s, k, n - 1);
      assert AllowedAt(e, l, s.shared, s.threads[k], n - 1) && y.threads[k] == t;
      var moved := Move(e, y.shared, t, Chosen(l, t));
      u := moved.1;
      z := OperationFailures.Go(e, y, k, Chosen(l, t), moved.0, u);
    }
  }

  // Should the next step be the end of a merge, it is one the merge machine allows.
  ghost predicate AllowedAt(e: Settings, l: Luck, w: Shared, t: Thread, m: nat) {
    var (v, u) := Alone(e, l, w, t, m);
    Allowed(e, v, u, Chosen(l, u))
  }

  // ---------- Submit ----------

  ghost predicate SubmitLeaves(e: Settings, w: Shared, request: Request, l: Luck, v: Shared) {
    if !ValidRequest(request) || !Decide(e.limits, request.manifest, CurrentLoad(w.tables)).allowed
       || request.key in w.tables.idempotency || l.id == "" || l.id in w.tables.operations
    then v == w
    else
      var state := if l.notes then Accepted else Failed;
      var record := Record(
        l.id, request.manifest.fileID, request.key, state, if l.notes then 1 else 2, 0, 0, "", None);
      v == w.(
        tables := w.tables.(
          operations := w.tables.operations[l.id := record],
          idempotency := w.tables.idempotency[request.key := l.id]),
        requests := w.requests[l.id := request],
        journal := if l.notes then w.journal + [Event(l.id, Accepted, 0, 0)] else w.journal)
  }

  // A new operation is stored as accepted and its event written, or nothing is
  // changed. When the event cannot be written, the operation is stored as failed.
  lemma SoloSubmit(e: Settings, w: Shared, request: Request, l: Luck) returns (v: Shared)
    ensures Takes(e, l, w, Admitting(request), 5, v, Gone) && SubmitLeaves(e, w, request, l, v)
  {
    hide Decide, ValidRequest, CurrentLoad, Move, Takes, Create, AfterCreate, AfterUpdate, Update;
    var t := Admitting(request);
    var ok := ValidRequest(request) && Admits(e, w, request.manifest);
    SubmitStep(e, l, w, t);
    if !ok {
      v := w;
      Over(e, l, w, t, 1, v, 5);
    } else {
      ValidNames(request);
      SubmitStep(e, l, w, Creating(request));
      Creates(w.tables, l.id, request);
      if !Create(w.tables, ToRecord(NewOp(l.id, request))).Created? {
        v := w;
        Then(e, l, w, t, 1, w, Creating(request), 1, w, Gone);
        Over(e, l, w, t, 2, v, 5);
      } else {
        v := SoloCreated(e, w, request, l);
      }
    }
  }

  lemma ValidNames(request: Request)
    requires ValidRequest(request)
    ensures request.key != "" && request.manifest.fileID != ""
  {
  }

  function Fresh(id: string, request: Request): Record {
    Record(id, request.manifest.fileID, request.key, Accepted, 1, 0, 0, "", None)
  }

  lemma Creates(t: Tables, id: string, request: Request)
    requires request.key != "" && request.manifest.fileID != ""
    ensures var r := ToRecord(NewOp(id, request));
      && (Create(t, r).Created? <==> request.key !in t.idempotency && id != "" && id !in t.operations)
      && (Create(t, r).Created? ==>
            AfterCreate(t, r) == t.(operations := t.operations[id := Fresh(id, request)],
                                    idempotency := t.idempotency[request.key := id]))
  {
  }

  lemma SubmitStep(e: Settings, l: Luck, w: Shared, t: Thread)
    requires Submits(t)
    ensures var (v, u) := SubmitMove(e, w, t, Chosen(l, t)); Takes(e, l, w, t, 1, v, u)
  {
    hide SubmitMove, StartMove, FinishMove, CancelMove;
    var (v, u) := SubmitMove(e, w, t, Chosen(l, t));
    OneStep(e, l, w, t, v, u);
  }

  // Submit from the creation of its record on.
  lemma SoloCreated(e: Settings, w: Shared, request: Request, l: Luck) returns (v: Shared)
    requires ValidRequest(request) && Admits(e, w, request.manifest)
    requires request.key !in w.tables.idempotency && l.id != "" && l.id !in w.tables.operations
    ensures Takes(e, l, w, Admitting(request), 5, v, Gone) && SubmitLeaves(e, w, request, l, v)
  {
    hide Decide, ValidRequest, CurrentLoad, Move, Takes, Create, AfterCreate, Admits, SubmitLeaves;
    var t, op := Admitting(request), NewOp(l.id, request);
    ValidNames(request);
    Creates(w.tables, l.id, request);
    var w1 := w.(tables := AfterCreate(w.tables, ToRecord(op)));
    var w2 := w1.(requests := w1.requests[l.id := request]);
    SubmitStep(e, l, w, t);
    SubmitStep(e, l, w, Creating(request));
    Then(e, l, w, t, 1, w, Creating(request), 1, w1, Storing(op, request));
    SubmitStep(e, l, w1, Storing(op, request));
    Then(e, l, w, t, 2, w1, Storing(op, request), 1, w2, Accepting(op));
    SubmitStep(e, l, w2, Accepting(op));
    if l.notes {
      v := w2.(journal := w2.journal + [EventOf(op)]);
      Then(e, l, w, t, 3, w2, Accepting(op), 1, v, Gone);
      Over(e, l, w, t, 4, v, 5);
    } else {
      Then(e, l, w, t, 3, w2, Accepting(op), 1, w2, Undoing(op));
      v := w2.(tables := AfterUpdate(w2.tables, ToRecord(op.(state := Failed)), 1));
      SubmitStep(e, l, w2, Undoing(op));
      Then(e, l, w, t, 4, w2, Undoing(op), 1, v, Gone);
    }
    SubmittedLeaves(e, w, request, l, v);
  }

  lemma SubmittedLeaves(e: Settings, w: Shared, request: Request, l: Luck, v: Shared)
    requires ValidRequest(request) && Admits(e, w, request.manifest)
    requires request.key !in w.tables.idempotency && l.id != "" && l.id !in w.tables.operations
    requires var op := NewOp(l.id, request);
      var created := w.tables.(
        operations := w.tables.operations[l.id := Fresh(l.id, request)],
        idempotency := w.tables.idempotency[request.key := l.id]);
      v == w.(
        tables := if l.notes then created else AfterUpdate(created, ToRecord(op.(state := Failed)), 1),
        requests := w.requests[l.id := request],
        journal := if l.notes then w.journal + [EventOf(op)] else w.journal)
    ensures SubmitLeaves(e, w, request, l, v)
  {
    hide ValidRequest, Decide, CurrentLoad;
    if !l.notes {
      var failed := Fresh(l.id, request).(state := Failed, revision := 2);
      assert w.tables.operations[l.id := Fresh(l.id, request)][l.id := failed] == w.tables.operations[l.id := failed];
    }
  }

  // ---------- Cancel ----------

  ghost predicate CancelLeaves(w: Shared, id: string, l: Luck, v: Shared) {
    if !l.looks || id !in w.tables.operations || id !in w.requests || Terminal(w.tables.operations[id].state)
    then v == w
    else
      var r := w.tables.operations[id];
      v == w.(
        tables := w.tables.(
          operations := w.tables.operations[id := r.(state := OpState.Cancelled, revision := r.revision + 1)]),
        journal := if l.concludes then w.journal + [Event(id, OpState.Cancelled, 0, 0)] else w.journal)
  }

  // An operation that has not ended is cancelled in place; nothing else changes.
  lemma SoloCancel(e: Settings, w: Shared, id: string, l: Luck) returns (v: Shared)
    requires CatalogOk(w.tables, w.requests)
    ensures Takes(e, l, w, CancelLooking(id), 4, v, Gone) && CancelLeaves(w, id, l, v)
  {
    hide Move, Takes, CatalogOk, AfterUpdate, Update, ToRecord;
    var t, got := CancelLooking(id), Get(w, id);
    CancelStep(e, l, w, t);
    if !l.looks || got.None? || Terminal(got.value.state) {
      v := w;
      Over(e, l, w, t, 1, v, 4);
    } else {
      var op, seen := got.value, w.tables.operations[id].revision;
      ReplacesRead(w, id, op.(state := OpState.Cancelled));
      CancelStep(e, l, w, CancelReading(op, seen));
      Then(e, l, w, t, 1, w, CancelReading(op, seen), 1, w, Cancelling(op, seen, seen));
      v := SoloCancelling(e, w, op, seen, l);
      Then(e, l, w, t, 2, w, Cancelling(op, seen, seen), 2, v, Gone);
    }
  }

  // Cancel from its swap on.
  lemma SoloCancelling(e: Settings, w: Shared, op: Op, seen: nat, l: Luck) returns (v: Shared)
    requires op.id in w.tables.operations && !Terminal(w.tables.operations[op.id].state)
    requires Update(w.tables, ToRecord(op.(state := OpState.Cancelled)), seen).Success?
    ensures Takes(e, l, w, Cancelling(op, seen, seen), 2, v, Gone)
    ensures v == w.(
      tables := AfterUpdate(w.tables, ToRecord(op.(state := OpState.Cancelled)), seen),
      journal := if l.concludes then w.journal + [Event(op.id, OpState.Cancelled, 0, 0)] else w.journal)
  {
    hide Move, Takes, AfterUpdate, Update, ToRecord;
    var cancelled := op.(state := OpState.Cancelled);
    var w1 := w.(tables := AfterUpdate(w.tables, ToRecord(cancelled), seen));
    CancelStep(e, l, w, Cancelling(op, seen, seen));
    FinishStep(e, l, w1, Concluding(cancelled, None));
    v := if l.concludes then w1.(journal := w1.journal + [EventOf(cancelled)]) else w1;
    Then(e, l, w, Cancelling(op, seen, seen), 1, w1, Concluding(cancelled, None), 1, v, Gone);
  }

  lemma CancelStep(e: Settings, l: Luck, w: Shared, t: Thread)
    requires Cancels(t)
    ensures var (v, u) := CancelMove(e, w, t, Chosen(l, t)); Takes(e, l, w, t, 1, v, u)
  {
    hide SubmitMove, StartMove, FinishMove, CancelMove;
    var (v, u) := CancelMove(e, w, t, Chosen(l, t));
    OneStep(e, l, w, t, v, u);
  }

  lemma FinishStep(e: Settings, l: Luck, w: Shared, t: Thread)
    requires !Submits(t) && !Starts(t) && !Cancels(t)
    ensures var (v, u) := FinishMove(e, w, t, Chosen(l, t)); Takes(e, l, w, t, 1, v, u)
  {
    hide SubmitMove, StartMove, FinishMove, CancelMove;
    var (v, u) := FinishMove(e, w, t, Chosen(l, t));
    OneStep(e, l, w, t, v, u);
  }

  lemma StartStep(e: Settings, l: Luck, w: Shared, t: Thread)
    requires Starts(t)
    ensures var (v, u) := StartMove(e, w, t, Chosen(l, t)); Takes(e, l, w, t, 1, v, u)
  {
    hide SubmitMove, StartMove, FinishMove, CancelMove;
    var (v, u) := StartMove(e, w, t, Chosen(l, t));
    OneStep(e, l, w, t, v, u);
  }

  // Storing a changed operation over the record just read replaces that record.
  lemma ReplacesRead(w: Shared, id: string, next: Op)
    requires CatalogOk(w.tables, w.requests) && Get(w, id).Some?
    requires var op := Get(w, id).value; next.id == op.id && next.key == op.key && next.manifest == op.manifest
    ensures Get(w, id).value.id == id
    ensures var r := w.tables.operations[id];
      var stored := ToRecord(next).(revision := r.revision + 1);
      && Update(w.tables, ToRecord(next), r.revision) == Success(stored)
      && AfterUpdate(w.tables, ToRecord(next), r.revision)
           == w.tables.(operations := w.tables.operations[id := stored])
      && stored == r.(state := next.state, attempt := next.attempt, fence := next.fence, owner := next.owner,
                      result := next.result, revision := r.revision + 1)
  {
    assert RequestOk(w.tables, id, w.requests[id]);
    hide ValidRequest;
  }

  // ---------- Run ----------

  // The context holds, the operation waits to be run, and its file is not leased.
  predicate Startable(e: Settings, w: Shared, id: string, l: Luck) {
    && l.looks && id in w.tables.operations && id in w.requests
    && (w.tables.operations[id].state.Accepted? || w.tables.operations[id].state.Retrying?)
    && e.workerID != "" && e.ttl > 0
    && var resource := "merge/" + w.requests[id].manifest.fileID;
       resource in w.ledger.leases ==> w.ledger.leases[resource].expiresAt <= l.now
  }

  // The record while the operation runs under this fence.
  function RunningRecord(e: Settings, r: Record, fence: nat): Record {
    r.(state := Running, attempt := r.attempt + 1, fence := fence, owner := e.workerID, revision := r.revision + 1)
  }

  // A run takes the lease, counts the attempt, ends as its merge does and gives
  // the lease back, or does nothing at all. Only when the journal does not take
  // its first event is the operation left running.
  ghost predicate RunLeaves(e: Settings, w: Shared, id: string, l: Luck, v: Shared) {
    if !Startable(e, w, id, l) then v == w
    else
      var manifest, fence := w.requests[id].manifest, w.ledger.next + 1;
      var running := RunningRecord(e, w.tables.operations[id], fence);
      var begun := w.(
        tables := w.tables.(operations := w.tables.operations[id := running]),
        ledger := L.Ledger(fence, w.ledger.leases - {"merge/" + manifest.fileID}));
      if !l.notes then v == begun
      else
        var noted := begun.(journal := w.journal + [Event(id, Running, running.attempt, fence)]);
        if !Decide(e.limits, manifest, CurrentLoad(begun.tables)).allowed then FailsAs(e, noted, id, Permanent, l, v)
        else
          match l.outcome
          case Unmerged(cause) => FailsAs(e, noted, id, cause, l, v)
          case Merged(receipt) => CompletesAs(noted, id, receipt, l, v)
  }

  // The running operation is stored as retrying or failed, and reported.
  ghost predicate FailsAs(e: Settings, w: Shared, id: string, cause: FailureClass, l: Luck, v: Shared)
    requires id in w.tables.operations
  {
    var r := w.tables.operations[id];
    var state := if cause == Transient && r.attempt < e.limits.maxAttempts then Retrying else Failed;
    v == w.(
      tables := w.tables.(operations := w.tables.operations[id := r.(state := state, revision := r.revision + 1)]),
      journal := if l.concludes then w.journal + [Event(id, state, r.attempt, r.fence)] else w.journal)
  }

  // The running operation is stored as completed; if its file has no other
  // artifact, that is published and the completion reported.
  ghost predicate CompletesAs(w: Shared, id: string, receipt: CommitReceipt, l: Luck, v: Shared)
    requires id in w.tables.operations
  {
    var r, f, artifacts := w.tables.operations[id], receipt.fileID, w.tables.artifacts;
    var done := r.(state := Completed, result := Some(receipt), revision := r.revision + 1);
    var refused := f == "" || id == "" ||
      (f in artifacts &&
         (artifacts[f].receipt.version != receipt.version || artifacts[f].receipt.digest != receipt.digest));
    v == w.(
      tables := w.tables.(
        operations := w.tables.operations[id := done],
        artifacts := if refused || f in artifacts then artifacts else artifacts[f := Artifact(receipt, id)]),
      journal :=
        if l.concludes && !refused then w.journal + [Event(id, Completed, r.attempt, r.fence)] else w.journal)
  }

  // Leaving, which gives the lease back.
  function Freed(w: Shared, lease: L.Lease): Shared {
    w.(ledger := L.After(w.ledger, L.Release(lease.resource, lease.owner, lease.fence)))
  }

  // The thread's operation is what its record says.
  ghost predicate Current(w: Shared, op: Op, revision: nat) {
    && op.id in w.tables.operations && w.tables.operations[op.id] == ToRecord(op).(revision := revision)
  }

  lemma StoresCurrent(w: Shared, op: Op, revision: nat, next: Op)
    requires Current(w, op, revision)
    requires next.id == op.id && next.key == op.key && next.manifest == op.manifest
    ensures var r := w.tables.operations[op.id];
      var stored := r.(state := next.state, attempt := next.attempt, fence := next.fence, owner := next.owner,
                       result := next.result, revision := r.revision + 1);
      && Update(w.tables, ToRecord(next), revision).Success?
      && AfterUpdate(w.tables, ToRecord(next), revision)
           == w.tables.(operations := w.tables.operations[op.id := stored])
  {
  }

  // Reporting and leaving.
  lemma Concludes(e: Settings, l: Luck, w: Shared, op: Op, lease: L.Lease)
    requires op.state.Completed? || op.state.Failed? || op.state.Retrying?
    ensures var event := Event(op.id, op.state, op.attempt, op.fence);
      var v := if l.concludes then w.(journal := w.journal + [event]) else w;
      Takes(e, l, w, Concluding(op, Some(lease)), 2, Freed(v, lease), Gone)
  {
    hide Move, Takes, L.After;
    var t := Concluding(op, Some(lease));
    var v := if l.concludes then w.(journal := w.journal + [EventOf(op)]) else w;
    FinishStep(e, l, w, t);
    FinishStep(e, l, v, Leaving(lease));
    Then(e, l, w, t, 1, v, Leaving(lease), 1, Freed(v, lease), Gone);
  }

  // finishFailure
  lemma SoloFailing(e: Settings, l: Luck, w: Shared, op: Op, lease: L.Lease, revision: nat, cause: FailureClass)
    returns (v: Shared)
    requires Current(w, op, revision) && op.state.Running?
    ensures Takes(e, l, w, Failing(op, lease, revision, cause), 3, Freed(v, lease), Gone)
    ensures FailsAs(e, w, op.id, cause, l, v)
  {
    hide Move, Takes, L.After, Update, AfterUpdate, Freed;
    var t, failed := Failing(op, lease, revision, cause), AfterFailure(e, op, cause);
    RetryIff(e.limits, op.attempt, cause);
    hide Retry;
    StoresCurrent(w, op, revision, failed);
    var w1 := w.(tables := AfterUpdate(w.tables, ToRecord(failed), revision));
    FinishStep(e, l, w, t);
    Concludes(e, l, w1, failed, lease);
    v := if l.concludes then w1.(journal := w1.journal + [Event(failed.id, failed.state, failed.attempt, failed.fence)])
         else w1;
    Then(e, l, w, t, 1, w1, Concluding(failed, Some(lease)), 2, Freed(v, lease), Gone);
  }

  // Storing the result, publishing it and reporting it.
  lemma SoloCompleting(e: Settings, l: Luck, w: Shared, op: Op, lease: L.Lease, revision: nat, receipt: CommitReceipt)
    returns (v: Shared)
    requires Current(w, op, revision) && op.state.Running?
    ensures Takes(e, l, w, Completing(op, lease, revision, receipt), 4, Freed(v, lease), Gone)
    ensures CompletesAs(w, op.id, receipt, l, v)
  {
    hide Move, Takes, L.After, Update, AfterUpdate, Freed;
    var t, done := Completing(op, lease, revision, receipt), op.(state := Completed, result := Some(receipt));
    StoresCurrent(w, op, revision, done);
    var w1 := w.(tables := AfterUpdate(w.tables, ToRecord(done), revision));
    FinishStep(e, l, w, t);
    v := SoloPublishing(e, l, w1, done, lease, receipt);
    Then(e, l, w, t, 1, w1, Publishing(done, lease, receipt), 3, Freed(v, lease), Gone);
  }

  lemma SoloPublishing(e: Settings, l: Luck, w: Shared, op: Op, lease: L.Lease, receipt: CommitReceipt)
    returns (v: Shared)
    requires op.state.Completed?
    ensures Takes(e, l, w, Publishing(op, lease, receipt), 3, Freed(v, lease), Gone)
    ensures var f, artifacts := receipt.fileID, w.tables.artifacts;
      var refused := f == "" || op.id == "" ||
        (f in artifacts &&
           (artifacts[f].receipt.version != receipt.version || artifacts[f].receipt.digest != receipt.digest));
      v == w.(
        tables := w.tables.(
          artifacts := if refused || f in artifacts then artifacts else artifacts[f := Artifact(receipt, op.id)]),
        journal := if l.concludes && !refused then w.journal + [Event(op.id, Completed, op.attempt, op.fence)]
                   else w.journal)
  {
    hide Move, Takes, L.After, Freed;
    var t, artifact := Publishing(op, lease, receipt), Artifact(receipt, op.id);
    FinishStep(e, l, w, t);
    if PutError(w.tables, artifact).Some? {
      v := w;
      LeavingStep(e, l, w, lease);
      Then(e, l, w, t, 1, w, Leaving(lease), 1, Freed(w, lease), Gone);
      Over(e, l, w, t, 2, Freed(v, lease), 3);
    } else {
      var w1 := w.(tables := AfterPut(w.tables, artifact));
      Concludes(e, l, w1, op, lease);
      v := if l.concludes then w1.(journal := w1.journal + [Event(op.id, op.state, op.attempt, op.fence)]) else w1;
      Then(e, l, w, t, 1, w1, Concluding(op, Some(lease)), 2, Freed(v, lease), Gone);
    }
  }

  lemma LeavingStep(e: Settings, l: Luck, w: Shared, lease: L.Lease)
    ensures Takes(e, l, w, Leaving(lease), 1, Freed(w, lease), Gone)
  {
    hide Move, Takes, L.After;
    FinishStep(e, l, w, Leaving(lease));
  }

  // From the second admission on.
  ghost predicate JudgedAs(e: Settings, w: Shared, op: Op, l: Luck, v: Shared)
    requires op.id in w.tables.operations
  {
    if !Decide(e.limits, RequestOf(w, op.id).manifest, CurrentLoad(w.tables)).allowed
    then FailsAs(e, w, op.id, Permanent, l, v)
    else
      match l.outcome
      case Unmerged(cause) => FailsAs(e, w, op.id, cause, l, v)
      case Merged(receipt) => CompletesAs(w, op.id, receipt, l, v)
  }

  lemma SoloJudging(e: Settings, l: Luck, w: Shared, op: Op, lease: L.Lease, revision: nat) returns (v: Shared)
    requires Current(w, op, revision) && op.state.Running?
    ensures Takes(e, l, w, Judging(op, lease, revision), 6, Freed(v, lease), Gone) && JudgedAs(e, w, op, l, v)
  {
    hide Move, Takes, L.After, Freed, Decide, CurrentLoad, FailsAs, CompletesAs, Current, RequestOf;
    CurrentIsStored(w, op, revision);
    var t := Judging(op, lease, revision);
    FinishStep(e, l, w, t);
    if !Admits(e, w, RequestOf(w, op.id).manifest) {
      v := SoloFailing(e, l, w, op, lease, revision, Permanent);
      Then(e, l, w, t, 1, w, Failing(op, lease, revision, Permanent), 3, Freed(v, lease), Gone);
      Over(e, l, w, t, 4, Freed(v, lease), 6);
    } else {
      FinishStep(e, l, w, Merging(op, lease, revision));
      match l.outcome
      case Unmerged(cause) =>
        v := SoloFailing(e, l, w, op, lease, revision, cause);
        Then(e, l, w, t, 1, w, Merging(op, lease, revision), 1, w, Failing(op, lease, revision, cause));
        Then(e, l, w, t, 2, w, Failing(op, lease, revision, cause), 3, Freed(v, lease), Gone);
        Over(e, l, w, t, 5, Freed(v, lease), 6);
      case Merged(receipt) =>
        v := SoloCompleting(e, l, w, op, lease, revision, receipt);
        Then(e, l, w, t, 1, w, Merging(op, lease, revision), 1, w, Completing(op, lease, revision, receipt));
        Then(e, l, w, t, 2, w, Completing(op, lease, revision, receipt), 4, Freed(v, lease), Gone);
    }
  }

  lemma CurrentIsStored(w: Shared, op: Op, revision: nat)
    requires Current(w, op, revision)
    ensures op.id in w.tables.operations
  {
  }

  // Up to the swap: the lease is taken and the record stored as running.
  lemma SoloStarting(e: Settings, w: Shared, id: string, l: Luck) returns (w': Shared, op: Op, lease: L.Lease)
    requires CatalogOk(w.tables, w.requests) && Startable(e, w, id, l)
    ensures id in w.tables.operations && Underway(e, w, id, l, w', op, lease)
    ensures var revision := w.tables.operations[id].revision + 1;
      Current(w', op, revision) && Takes(e, l, w, Looking(id), 4, w', Noting(op, lease, revision))
  {
    hide Move, Takes, CatalogOk, Update, AfterUpdate, ToRecord, L.Acquired, L.After;
    var t, got, seen := Looking(id), Get(w, id).value, w.tables.operations[id].revision;
    op, lease := FreshLease(e, w, id, l);
    var w1 := w.(ledger := L.Ledger(lease.fence, w.ledger.leases[lease.resource := lease]));
    ReplacesRead(w1, id, op);
    w' := Operations.Swap(w1, op, seen, seen, true);
    StartStep(e, l, w, t);
    StartStep(e, l, w, Leasing(got, seen));
    Then(e, l, w, t, 1, w, Leasing(got, seen), 1, w1, Reading(got, seen, lease));
    StartStep(e, l, w1, Reading(got, seen, lease));
    Then(e, l, w, t, 2, w1, Reading(got, seen, lease), 1, w1, Starting(got, seen, lease, seen));
    StartStep(e, l, w1, Starting(got, seen, lease, seen));
    Then(e, l, w, t, 3, w1, Starting(got, seen, lease, seen), 1, w', Noting(op, lease, seen + 1));
  }

  // The lease a startable run is granted, and its operation under it.
  lemma FreshLease(e: Settings, w: Shared, id: string, l: Luck) returns (op: Op, lease: L.Lease)
    requires Startable(e, w, id, l)
    ensures var fence, resource := w.ledger.next + 1, "merge/" + w.requests[id].manifest.fileID;
      var call := L.Acquire(resource, e.workerID, e.ttl, l.now);
      && lease == L.Lease(resource, e.workerID, fence, l.now, l.now + e.ttl)
      && L.Acquired(w.ledger, call) == Success(lease)
      && L.After(w.ledger, call) == L.Ledger(fence, w.ledger.leases[resource := lease])
      && op == Started(Get(w, id).value, lease)
  {
    var resource := "merge/" + w.requests[id].manifest.fileID;
    assert |resource| >= 6;
    lease := L.Lease(resource, e.workerID, w.ledger.next + 1, l.now, l.now + e.ttl);
    op := Started(Get(w, id).value, lease);
  }

  // A run that may not start changes nothing.
  lemma SoloRefused(e: Settings, w: Shared, id: string, l: Luck)
    requires !Startable(e, w, id, l)
    ensures Takes(e, l, w, Looking(id), 11, w, Gone)
  {
    hide Move, Takes, L.After;
    var t, got := Looking(id), Get(w, id);
    StartStep(e, l, w, t);
    if l.looks && got.Some? && CanStart(got.value.state) {
      var next := Leasing(got.value, w.tables.operations[id].revision);
      StartStep(e, l, w, next);
      Then(e, l, w, t, 1, w, next, 1, w, Gone);
      Over(e, l, w, t, 2, w, 11);
    } else {
      Over(e, l, w, t, 1, w, 11);
    }
  }

  lemma SoloRun(e: Settings, w: Shared, id: string, l: Luck) returns (v: Shared)
    requires CatalogOk(w.tables, w.requests)
    ensures Takes(e, l, w, Looking(id), 11, v, Gone) && RunLeaves(e, w, id, l, v)
  {
    hide Move, Takes, CatalogOk, Startable, Current, Freed, JudgedAs;
    if !Startable(e, w, id, l) {
      v := w;
      SoloRefused(e, w, id, l);
    } else {
      var w', op, lease := SoloStarting(e, w, id, l);
      var t, revision := Looking(id), w.tables.operations[id].revision + 1;
      FinishStep(e, l, w', Noting(op, lease, revision));
      if !l.notes {
        v := Freed(w', lease);
        Then(e, l, w, t, 4, w', Noting(op, lease, revision), 1, w', Leaving(lease));
        LeavingStep(e, l, w', lease);
        Then(e, l, w, t, 5, w', Leaving(lease), 1, v, Gone);
        Over(e, l, w, t, 6, v, 11);
        RunStuck(e, w, id, l, w', op, lease, v);
      } else {
        var noted := w'.(journal := w'.journal + [EventOf(op)]);
        Then(e, l, w, t, 4, w', Noting(op, lease, revision), 1, noted, Judging(op, lease, revision));
        CurrentAside(w', noted, op, revision);
        var x := SoloJudging(e, l, noted, op, lease, revision);
        v := Freed(x, lease);
        Then(e, l, w, t, 5, noted, Judging(op, lease, revision), 6, v, Gone);
        RunEnds(e, w, id, l, w', op, lease, noted, x);
      }
    }
  }

  lemma CurrentAside(w: Shared, v: Shared, op: Op, revision: nat)
    requires Current(w, op, revision) && v.tables == w.tables
    ensures Current(v, op, revision) && op.id in v.tables.operations
  {
  }

  // The state SoloStarting leaves, with what is known of its operation and lease.
  ghost predicate Underway(e: Settings, w: Shared, id: string, l: Luck, w': Shared, op: Op, lease: L.Lease)
    requires Startable(e, w, id, l)
  {
    var r, fence := w.tables.operations[id], w.ledger.next + 1;
    var resource := "merge/" + w.requests[id].manifest.fileID;
    && lease == L.Lease(resource, e.workerID, fence, l.now, l.now + e.ttl)
    && w' == w.(tables := w.tables.(operations := w.tables.operations[id := RunningRecord(e, r, fence)]),
                ledger := L.Ledger(fence, w.ledger.leases[resource := lease]))
    && op.id == id && op.state.Running? && op.attempt == r.attempt + 1 && op.fence == fence
  }

  lemma FreedLedger(w: Shared, leases: map<string, L.Lease>, lease: L.Lease)
    requires w.ledger.leases == leases[lease.resource := lease]
    ensures Freed(w, lease) == w.(ledger := L.Ledger(w.ledger.next, leases - {lease.resource}))
  {
    assert leases[lease.resource := lease] - {lease.resource} == leases - {lease.resource};
  }

  lemma RunStuck(e: Settings, w: Shared, id: string, l: Luck, w': Shared, op: Op, lease: L.Lease, v: Shared)
    requires Startable(e, w, id, l) && Underway(e, w, id, l, w', op, lease)
    requires !l.notes && v == Freed(w', lease)
    ensures RunLeaves(e, w, id, l, v)
  {
    FreedLedger(w', w.ledger.leases, lease);
    hide Startable, Freed;
  }

  lemma RunEnds(
    e: Settings, w: Shared, id: string, l: Luck, w': Shared, op: Op, lease: L.Lease, noted: Shared, x: Shared)
    requires Startable(e, w, id, l) && Underway(e, w, id, l, w', op, lease) && l.notes
    requires noted == w'.(journal := w'.journal + [EventOf(op)]) && JudgedAs(e, noted, op, l, x)
    ensures RunLeaves(e, w, id, l, Freed(x, lease))
  {
    var ledger := L.Ledger(w.ledger.next + 1, w.ledger.leases - {lease.resource});
    JudgedAside(e, noted, op, l, x, ledger);
    FreedLedger(x, w.ledger.leases, lease);
    hide Startable, Freed, FailsAs, CompletesAs, Decide, CurrentLoad;
  }

  // Nothing in how a run ends depends on the ledger.
  lemma JudgedAside(e: Settings, w: Shared, op: Op, l: Luck, v: Shared, ledger: L.Ledger)
    requires op.id in w.tables.operations && JudgedAs(e, w, op, l, v)
    ensures v.ledger == w.ledger && JudgedAs(e, w.(ledger := ledger), op, l, v.(ledger := ledger))
  {
    hide Decide, CurrentLoad, FailsAs, CompletesAs;
    match l.outcome
    case Unmerged(cause) =>
      FailsAside(e, w, op.id, Permanent, l, v, ledger);
      FailsAside(e, w, op.id, cause, l, v, ledger);
    case Merged(receipt) =>
      FailsAside(e, w, op.id, Permanent, l, v, ledger);
      CompletesAside(w, op.id, receipt, l, v, ledger);
  }

  lemma FailsAside(
    e: Settings, w: Shared, id: string, cause: FailureClass, l: Luck, v: Shared, ledger: L.Ledger)
    requires id in w.tables.operations
    ensures FailsAs(e, w, id, cause, l, v) ==>
      v.ledger == w.ledger && FailsAs(e, w.(ledger := ledger), id, cause, l, v.(ledger := ledger))
  {
  }

  lemma CompletesAside(w: Shared, id: string, receipt: CommitReceipt, l: Luck, v: Shared, ledger: L.Ledger)
    requires id in w.tables.operations
    ensures CompletesAs(w, id, receipt, l, v) ==>
      v.ledger == w.ledger && CompletesAs(w.(ledger := ledger), id, receipt, l, v.(ledger := ledger))
  {
  }
}
