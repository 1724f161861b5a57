// What holds in every reachable state of the operation service, whatever the
// interleaving: part of it always, part of it as long as no Start or Cancel
// replaced a record it had not read.
module Lifecycle {
  import opened Prelude
  import opened Policies
  import opened Catalogs
  import opened Operations
  import L = Leases

  // ---------- Always ----------

  ghost predicate CatalogOk(t: Tables, requests: map<string, Request>) {
    Paired(t) && RequestsOk(t, requests)
  }

  ghost predicate RequestsOk(t: Tables, requests: map<string, Request>) {
    forall id :: id in requests ==> RequestOk(t, id, requests[id])
  }

  ghost predicate RequestOk(t: Tables, id: string, request: Request) {
    && id in t.operations && ValidRequest(request)
    && t.operations[id].fileID == request.manifest.fileID && t.operations[id].key == request.key
  }

  // The operation is the record as it was at revision `seen`: if the record is
  // still at that revision, nothing in it has changed since.
  ghost predicate Snapshot(t: Tables, op: Op, seen: nat) {
    && op.id in t.operations
    && var r := t.operations[op.id];
    && r.fileID == op.manifest.fileID && r.key == op.key && seen <= r.revision
    && (r.revision == seen ==> r == ToRecord(op).(revision := seen))
  }

  ghost predicate Requested(requests: map<string, Request>, op: Op) {
    op.id in requests && requests[op.id].manifest == op.manifest
  }

  ghost predicate Known(w: Shared, op: Op, seen: nat) {
    Snapshot(w.tables, op, seen) && Requested(w.requests, op)
  }

  ghost predicate ReadAgain(t: Tables, op: Op, seen: nat, revision: nat) {
    op.id in t.operations && seen <= revision <= t.operations[op.id].revision
  }

  // What a thread knows to be so.
  ghost predicate ThreadOk(e: Settings, w: Shared, t: Thread) {
    match t
    case Creating(request) => ValidRequest(request)
    case Storing(op, request) =>
      ValidRequest(request) && op == NewOp(op.id, request) && Snapshot(w.tables, op, 1) && op.id !in w.requests
    case Accepting(op) => Known(w, op, 1) && op.state.Accepted? && op.attempt == 0
    case Undoing(op) => Known(w, op, 1) && op.state.Accepted? && op.attempt == 0
    case Leasing(op, seen) => Known(w, op, seen) && CanStart(op.state)
    case Reading(op, seen, lease) => Known(w, op, seen) && CanStart(op.state)
    case Starting(op, seen, lease, revision) =>
      Known(w, op, seen) && CanStart(op.state) && ReadAgain(w.tables, op, seen, revision)
    case Noting(op, lease, revision) => Known(w, op, revision) && op.state.Running?
    case Judging(op, lease, revision) => Known(w, op, revision) && op.state.Running?
    case Merging(op, lease, revision) => Known(w, op, revision) && op.state.Running?
    case Completing(op, lease, revision, receipt) =>
      Known(w, op, revision) && op.state.Running? && MergeYields(e.env, w.requests[op.id], receipt)
    case Failing(op, lease, revision, cause) => Known(w, op, revision) && op.state.Running?
    case Publishing(op, lease, receipt) =>
      && op.state.Completed? && op.result == Some(receipt) && Requested(w.requests, op)
      && MergeYields(e.env, w.requests[op.id], receipt)
    case Concluding(op, held) => Requested(w.requests, op)
    case CancelReading(op, seen) => Known(w, op, seen) && !Terminal(op.state)
    case Cancelling(op, seen, revision) =>
      Known(w, op, seen) && !Terminal(op.state) && ReadAgain(w.tables, op, seen, revision)
    case _ => true
  }

  // No two Submits are about to store a request under one id.
  ghost predicate StoringApart(threads: seq<Thread>) {
    forall j, k :: 0 <= j < k < |threads| && threads[j].Storing? && threads[k].Storing? ==>
      threads[j].op.id != threads[k].op.id
  }

  ghost predicate Always(e: Settings, s: State) {
    && CatalogOk(s.shared.tables, s.shared.requests) && StoringApart(s.threads)
    && forall k :: 0 <= k < |s.threads| ==> ThreadOk(e, s.shared, s.threads[k])
  }

  // Requests are only ever added, and the catalog only grows.
  ghost predicate Onward(w: Shared, v: Shared) {
    && Grown(w.tables, v.tables)
    && (forall id :: id in w.requests ==> id in v.requests && v.requests[id] == w.requests[id])
  }

  // The shared state after a step that began in w is in order.
  ghost predicate Settled(w: Shared, v: Shared) {
    CatalogOk(v.tables, v.requests) && Onward(w, v)
  }

  lemma KnownStays(w: Shared, v: Shared, op: Op, seen: nat)
    requires Onward(w, v)
    ensures Snapshot(w.tables, op, seen) ==> Snapshot(v.tables, op, seen)
    ensures Requested(w.requests, op) ==> Requested(v.requests, op) && v.requests[op.id] == w.requests[op.id]
    ensures forall revision :: ReadAgain(w.tables, op, seen, revision) ==> ReadAgain(v.tables, op, seen, revision)
  {
  }

  // What one thread knows stays so while others move on.
  lemma ThreadStaysOk(e: Settings, w: Shared, v: Shared, t: Thread)
    requires ThreadOk(e, w, t) && Onward(w, v)
    requires t.Storing? ==> t.op.id !in v.requests
    ensures ThreadOk(e, v, t)
  {
    hide ValidRequest, MergeYields, Onward, Snapshot, ReadAgain;
    match t
    case Storing(op, _) => KnownStays(w, v, op, 1);
    case Accepting(op) => KnownStays(w, v, op, 1);
    case Undoing(op) => KnownStays(w, v, op, 1);
    case Leasing(op, seen) => KnownStays(w, v, op, seen);
    case Reading(op, seen, _) => KnownStays(w, v, op, seen);
    case Starting(op, seen, _, _) => KnownStays(w, v, op, seen);
    case Noting(op, _, revision) => KnownStays(w, v, op, revision);
    case Judging(op, _, revision) => KnownStays(w, v, op, revision);
    case Merging(op, _, revision) => KnownStays(w, v, op, revision);
    case Completing(op, _, revision, _) => KnownStays(w, v, op, revision);
    case Failing(op, _, revision, _) => KnownStays(w, v, op, revision);
    case Publishing(op, _, _) => KnownStays(w, v, op, 0);
    case Concluding(op, _) => KnownStays(w, v, op, 0);
    case CancelReading(op, seen) => KnownStays(w, v, op, seen);
    case Cancelling(op, seen, _) => KnownStays(w, v, op, seen);
    case _ =>
  }

  lemma UpdateGrows(t: Tables, r: Record, expected: nat)
    ensures Grown(t, AfterUpdate(t, r, expected)) && (Paired(t) ==> Paired(AfterUpdate(t, r, expected)))
  {
    hide Grown, Paired, AfterUpdate;
    CallGrows(t, CallUpdate(r, expected));
    if Paired(t) {
      CallKeepsPaired(t, CallUpdate(r, expected));
    }
    assert After(t, CallUpdate(r, expected)) == AfterUpdate(t, r, expected);
  }

  lemma CreateGrows(t: Tables, r: Record)
    ensures Grown(t, AfterCreate(t, r)) && (Paired(t) ==> Paired(AfterCreate(t, r)))
  {
    hide Grown, Paired, AfterCreate;
    CallGrows(t, CallCreate(r));
    if Paired(t) {
      CallKeepsPaired(t, CallCreate(r));
    }
    assert After(t, CallCreate(r)) == AfterCreate(t, r);
  }

  // Requests that were right stay right as the catalog grows.
  lemma RequestsStayOk(t: Tables, u: Tables, requests: map<string, Request>)
    requires RequestsOk(t, requests) && Grown(t, u)
    ensures RequestsOk(u, requests)
  {
    hide ValidRequest;
    forall id | id in requests ensures RequestOk(u, id, requests[id]) {
      assert RequestOk(t, id, requests[id]);
    }
  }

  lemma GrownReflexive(t: Tables)
    ensures Grown(t, t)
  {
  }

  // A step that leaves the catalog and the requests alone.
  lemma QuietOk(w: Shared, v: Shared)
    requires CatalogOk(w.tables, w.requests) && v.tables == w.tables && v.requests == w.requests
    ensures Settled(w, v)
  {
    GrownReflexive(w.tables);
  }

  // v is w after the compare-and-swap of this operation's record.
  ghost predicate SwapsIn(w: Shared, v: Shared, op: Op, revision: nat) {
    v.requests == w.requests && v.tables == AfterUpdate(w.tables, ToRecord(op), revision)
  }

  // Apart from a stale revision, nothing ever makes the service's updates fail.
  lemma SwapOk(w: Shared, v: Shared, op: Op, next: Op, seen: nat, revision: nat)
    requires CatalogOk(w.tables, w.requests) && Known(w, op, seen) && SwapsIn(w, v, next, revision)
    requires next.id == op.id && next.key == op.key && next.manifest == op.manifest
    ensures Settled(w, v)
    ensures var u := Update(w.tables, ToRecord(next), revision);
      && (u.Success? <==> w.tables.operations[op.id].revision == revision)
      && (u.Failure? ==> u.error == RevisionConflict)
      && (u.Success? ==> Known(v, next, revision + 1))
  {
    hide Paired, RequestsOk, Grown;
    UpdateGrows(w.tables, ToRecord(next), revision);
    RequestsStayOk(w.tables, v.tables, w.requests);
  }

  lemma GetOk(w: Shared, id: string)
    requires CatalogOk(w.tables, w.requests) && Get(w, id).Some?
    ensures Known(w, Get(w, id).value, w.tables.operations[id].revision)
  {
    hide ValidRequest;
  }

  lemma CreateOk(w: Shared, id: string, request: Request)
    requires CatalogOk(w.tables, w.requests) && Create(w.tables, ToRecord(NewOp(id, request))).Created?
    ensures var op := NewOp(id, request);
      var v := w.(tables := AfterCreate(w.tables, ToRecord(op)));
      Settled(w, v) && Snapshot(v.tables, op, 1) && id !in v.requests
  {
    assert id in w.requests ==> RequestOk(w.tables, id, w.requests[id]);
    hide RequestsOk, RequestOk, Grown, Paired;
    CreateGrows(w.tables, ToRecord(NewOp(id, request)));
    RequestsStayOk(w.tables, AfterCreate(w.tables, ToRecord(NewOp(id, request))), w.requests);
  }

  lemma StoreOk(w: Shared, op: Op, request: Request)
    requires CatalogOk(w.tables, w.requests) && Snapshot(w.tables, op, 1)
    requires ValidRequest(request) && op == NewOp(op.id, request)
    requires op.id !in w.requests
    ensures var v := w.(requests := w.requests[op.id := request]);
      Settled(w, v) && Known(v, op, 1)
  {
    GrownReflexive(w.tables);
    hide ValidRequest, Grown;
    forall other | other in w.requests ensures RequestOk(w.tables, other, w.requests[other]) {
    }
  }

  lemma ReadAgainOk(w: Shared, op: Op, seen: nat)
    requires Known(w, op, seen)
    ensures ReadAgain(w.tables, op, seen, Lookup(w.tables, op.id).revision) && op.id in w.tables.operations
  {
  }

  lemma SubmitMoveOk(e: Settings, w: Shared, t: Thread, c: Choice)
    requires CatalogOk(w.tables, w.requests) && ThreadOk(e, w, t) && Submits(t)
    ensures var (v, u) := SubmitMove(e, w, t, c); Settled(w, v) && ThreadOk(e, v, u)
  {
    hide ValidRequest, Admits, Create, AfterCreate, AfterUpdate, CatalogOk, Settled, Snapshot, Requested;
    var v := SubmitMove(e, w, t, c).0;
    match t
    case Admitting(_) => QuietOk(w, v);
    case Creating(request) =>
      QuietOk(w, w);
      if Create(w.tables, ToRecord(NewOp(c.id, request))).Created? {
        CreateOk(w, c.id, request);
      }
    case Storing(op, request) => StoreOk(w, op, request);
    case Accepting(op) => QuietOk(w, v);
    case Undoing(op) => SwapOk(w, v, op, op.(state := Failed), 1, 1);
  }

  lemma StartMoveOk(e: Settings, w: Shared, t: Thread, c: Choice)
    requires CatalogOk(w.tables, w.requests) && ThreadOk(e, w, t) && Starts(t)
    ensures var (v, u) := StartMove(e, w, t, c); Settled(w, v) && ThreadOk(e, v, u)
  {
    hide L.After, L.Acquired, Update, AfterUpdate, CatalogOk, Settled;
    hide Resource, Snapshot, ReadAgain, ToRecord, FromRecord;
    var v := StartMove(e, w, t, c).0;
    match t
    case Looking(id) =>
      QuietOk(w, w);
      if Get(w, id).Some? {
        GetOk(w, id);
      }
    case Leasing(op, seen) => QuietOk(w, v);
    case Reading(op, seen, lease) =>
      QuietOk(w, w);
      ReadAgainOk(w, op, seen);
    case Starting(op, seen, lease, revision) =>
      QuietOk(w, w);
      var running := Started(op, lease);
      SwapOk(w, Swap(w, running, seen, revision, StartMayReplace(seen, revision)), op, running, seen, revision);
  }

  lemma FinishMoveOk(e: Settings, w: Shared, t: Thread, c: Choice)
    requires CatalogOk(w.tables, w.requests) && ThreadOk(e, w, t) && Allowed(e, w, t, c)
    requires !Submits(t) && !Starts(t) && !Cancels(t)
    ensures var (v, u) := FinishMove(e, w, t, c); Settled(w, v) && ThreadOk(e, v, u)
  {
    hide L.After, Admits, MergeYields, Update, AfterUpdate, PutError, AfterPut, CatalogOk, Settled;
    hide Snapshot, ToRecord, EventOf;
    var v := FinishMove(e, w, t, c).0;
    match t
    case Completing(_, _, _, _) => ReplaceOk(e, w, t, c);
    case Failing(_, _, _, _) => ReplaceOk(e, w, t, c);
    case Publishing(op, lease, receipt) =>
      QuietOk(w, w);
      PutOk(w, Artifact(receipt, op.id));
    case _ => QuietOk(w, v);
  }

  lemma ReplaceOk(e: Settings, w: Shared, t: Thread, c: Choice)
    requires CatalogOk(w.tables, w.requests) && ThreadOk(e, w, t) && (t.Completing? || t.Failing?)
    ensures var (v, u) := FinishMove(e, w, t, c); Settled(w, v) && ThreadOk(e, v, u)
  {
    hide MergeYields, Update, AfterUpdate, CatalogOk, Settled, Snapshot, ToRecord;
    QuietOk(w, w);
    match t
    case Completing(op, lease, revision, receipt) =>
      var done := op.(state := Completed, result := Some(receipt));
      SwapOk(w, w.(tables := AfterUpdate(w.tables, ToRecord(done), revision)), op, done, revision, revision);
    case Failing(op, lease, revision, cause) =>
      var failed := AfterFailure(e, op, cause);
      SwapOk(w, w.(tables := AfterUpdate(w.tables, ToRecord(failed), revision)), op, failed, revision, revision);
  }

  lemma PutOk(w: Shared, a: Artifact)
    requires CatalogOk(w.tables, w.requests)
    ensures var v := w.(tables := AfterPut(w.tables, a)); Settled(w, v)
  {
    hide Paired, Grown, RequestsOk, AfterPut;
    CallGrows(w.tables, CallPut(a));
    CallKeepsPaired(w.tables, CallPut(a));
    assert After(w.tables, CallPut(a)) == AfterPut(w.tables, a);
    RequestsStayOk(w.tables, AfterPut(w.tables, a), w.requests);
  }

  lemma CancelMoveOk(e: Settings, w: Shared, t: Thread, c: Choice)
    requires CatalogOk(w.tables, w.requests) && ThreadOk(e, w, t) && Cancels(t)
    ensures var (v, u) := CancelMove(e, w, t, c); Settled(w, v) && ThreadOk(e, v, u)
  {
    hide Update, AfterUpdate, CatalogOk, Settled, Snapshot, ToRecord, FromRecord, Grown;
    QuietOk(w, w);
    match t
    case CancelLooking(id) =>
      if Get(w, id).Some? {
        GetOk(w, id);
      }
    case CancelReading(op, seen) => ReadAgainOk(w, op, seen);
    case Cancelling(op, seen, revision) =>
      var cancelled := op.(state := OpState.Cancelled);
      var may := CancelMayReplace(op, seen, revision, e.limits.maxAttempts);
      SwapOk(w, Swap(w, cancelled, seen, revision, may), op, cancelled, seen, revision);
  }

  lemma MoveOk(e: Settings, w: Shared, t: Thread, c: Choice)
    requires CatalogOk(w.tables, w.requests) && ThreadOk(e, w, t) && Allowed(e, w, t, c)
    ensures var (v, u) := Move(e, w, t, c); Settled(w, v) && ThreadOk(e, v, u)
  {
    hide SubmitMove, StartMove, FinishMove, CancelMove, ThreadOk, Allowed, CatalogOk, Settled;
    if Submits(t) {
      SubmitMoveOk(e, w, t, c);
    } else if Starts(t) {
      StartMoveOk(e, w, t, c);
    } else if Cancels(t) {
      CancelMoveOk(e, w, t, c);
    } else {
      FinishMoveOk(e, w, t, c);
    }
  }

  // A step stores a request only under its own thread's id, and only from there.
  lemma MoveStores(e: Settings, w: Shared, t: Thread, c: Choice)
    requires ThreadOk(e, w, t)
    ensures var (v, u) := Move(e, w, t, c);
      && (forall id :: id in v.requests && id !in w.requests ==> t.Storing? && t.op.id == id)
      && (u.Storing? ==> u.op.id !in w.tables.operations)
  {
    hide Decide, CurrentLoad, ValidRequest, L.After, L.Acquired, AfterCreate, AfterUpdate, AfterPut, PutError, Update;
    hide MergeYields, Snapshot, Requested;
  }

  lemma {:induction false} AlwaysKept(e: Settings, s: State, a: Action)
    requires Always(e, s) && Enabled(e, s, a)
    ensures Always(e, Apply(e, s, a)) && Onward(s.shared, Apply(e, s, a).shared)
  {
    hide Move, ThreadOk, CatalogOk, Onward, L.After, Allowed, Width;
    var z := Apply(e, s, a);
    match a
    case Go(k, c) =>
      MoveOk(e, s.shared, s.threads[k], c);
      MoveStores(e, s.shared, s.threads[k], c);
      forall j | 0 <= j < |z.threads| ensures ThreadOk(e, z.shared, z.threads[j]) {
        if j != k {
          StoringIsNew(e, s.shared, s.threads[j]);
          ThreadStaysOk(e, s.shared, z.shared, s.threads[j]);
        }
      }
      ApartKept(e, s, k, c);
    case Arrive(t) =>
      QuietOk(s.shared, z.shared);
      NewcomerOk(e, z.shared, t);
    case LeaseCall(_) =>
      QuietOk(s.shared, z.shared);
      forall j | 0 <= j < |z.threads| ensures ThreadOk(e, z.shared, z.threads[j]) {
        LedgerAside(e, s.shared, z.shared, s.threads[j]);
      }
  }

  lemma StoringIsNew(e: Settings, w: Shared, t: Thread)
    requires ThreadOk(e, w, t)
    ensures t.Storing? ==> t.op.id !in w.requests
  {
  }

  lemma LedgerAside(e: Settings, w: Shared, v: Shared, t: Thread)
    requires ThreadOk(e, w, t) && v.tables == w.tables && v.requests == w.requests
    ensures ThreadOk(e, v, t)
  {
    hide Snapshot, ValidRequest, MergeYields;
  }

  lemma NewcomerOk(e: Settings, w: Shared, t: Thread)
    requires t.Admitting? || t.Looking? || t.CancelLooking?
    ensures ThreadOk(e, w, t)
  {
  }

  lemma ApartKept(e: Settings, s: State, k: nat, c: Choice)
    requires Always(e, s) && k < |s.threads|
    ensures StoringApart(s.threads[k := Move(e, s.shared, s.threads[k], c).1])
  {
    MoveStores(e, s.shared, s.threads[k], c);
    hide Move;
    var threads := s.threads[k := Move(e, s.shared, s.threads[k], c).1];
    forall i, j | 0 <= i < j < |threads| && threads[i].Storing? && threads[j].Storing?
      ensures threads[i].op.id != threads[j].op.id
    {
      if i == k || j == k {
        var other := if i == k then j else i;
        assert ThreadOk(e, s.shared, s.threads[other]);
      }
    }
  }

  // ---------- As long as every Start and Cancel replaced what it may ----------

  // The state, the attempt and the revision determine each other in this way.
  predicate LifecycleOk(r: Record, limit: int) {
    && 0 <= r.attempt <= limit
    && match r.state
       case Accepted => r.attempt == 0 && r.revision == 1
       case Running => r.attempt >= 1 && r.revision == 2 * r.attempt
       case Retrying => 1 <= r.attempt < limit && r.revision == 2 * r.attempt + 1
       case Completed => r.attempt >= 1 && r.revision == 2 * r.attempt + 1
       case Failed =>
         (r.attempt >= 1 && r.revision == 2 * r.attempt + 1) || (r.attempt == 0 && r.revision == 2)
       case Cancelled =>
         || (r.attempt >= 1 && r.revision == 2 * r.attempt + 1)
         || (r.attempt < limit && r.revision == 2 * r.attempt + 2)
  }

  // The moves of one record that the service is meant to make.
  predicate Progress(old': Record, new': Record, limit: int) {
    && new'.id == old'.id && new'.fileID == old'.fileID && new'.key == old'.key
    && new'.revision == old'.revision + 1 && MayBecome(old'.state, new'.state)
    && (if new'.state.Running? then new'.attempt == old'.attempt + 1 else new'.attempt == old'.attempt)
    && (new'.state.Retrying? ==> new'.attempt < limit)
    && (new'.state.Failed? && old'.state.Accepted? ==> old'.revision == 1)
    && (new'.state.Failed? ==> !old'.state.Retrying?)
  }

  lemma ProgressKeepsLifecycle(old': Record, new': Record, limit: int)
    requires limit >= 1 && LifecycleOk(old', limit) && Progress(old', new', limit)
    ensures LifecycleOk(new', limit)
  {
  }

  // Every record that changed or appeared did so in one of those ways or is in order by itself.
  ghost predicate Orderly(t: Tables, u: Tables, limit: int) {
    forall id :: id in u.operations ==>
      if id in t.operations
      then
        || u.operations[id] == t.operations[id]
        || Progress(t.operations[id], u.operations[id], limit) || LifecycleOk(u.operations[id], limit)
      else u.operations[id].state.Accepted? && u.operations[id].attempt == 0 && u.operations[id].revision == 1
  }

  // A compare-and-swap that found what its thread had read.
  lemma TrueSwap(t: Tables, op: Op, next: Op, seen: nat, limit: int)
    requires Snapshot(t, op, seen)
    requires next.id == op.id && next.key == op.key && next.manifest == op.manifest
    requires MayBecome(op.state, next.state)
    requires if next.state.Running? then next.attempt == op.attempt + 1 else next.attempt == op.attempt
    requires next.state.Retrying? ==> next.attempt < limit
    requires next.state.Failed? ==> op.state.Running? || (op.state.Accepted? && seen == 1)
    ensures Orderly(t, AfterUpdate(t, ToRecord(next), seen), limit)
  {
  }

  lemma CreateIsOrderly(t: Tables, id: string, request: Request, limit: int)
    ensures Orderly(t, AfterCreate(t, ToRecord(NewOp(id, request))), limit)
  {
  }

  lemma PutIsOrderly(t: Tables, a: Artifact, limit: int)
    ensures Orderly(t, AfterPut(t, a), limit)
  {
  }

  lemma OrderlyReflexive(t: Tables, limit: int)
    ensures Orderly(t, t, limit)
  {
  }

  // A Cancel that overtakes the end of an attempt it read running, while attempts remain.
  lemma LateCancel(t: Tables, op: Op, seen: nat, limit: int)
    requires LifecycleOk(ToRecord(op).(revision := seen), limit) && op.state.Running? && op.attempt < limit
    ensures Orderly(t, AfterUpdate(t, ToRecord(op.(state := OpState.Cancelled)), seen + 1), limit)
  {
  }

  lemma SubmitIsOrderly(e: Settings, w: Shared, t: Thread, c: Choice)
    requires ThreadOk(e, w, t) && Submits(t)
    ensures Orderly(w.tables, SubmitMove(e, w, t, c).0.tables, e.limits.maxAttempts)
  {
    hide Admits, ValidRequest, Create, AfterCreate, AfterUpdate, Snapshot, Requested, ToRecord, Orderly, LifecycleOk;
    OrderlyReflexive(w.tables, e.limits.maxAttempts);
    match t
    case Creating(request) => CreateIsOrderly(w.tables, c.id, request, e.limits.maxAttempts);
    case Undoing(op) => TrueSwap(w.tables, op, op.(state := Failed), 1, e.limits.maxAttempts);
    case _ =>
  }

  lemma StartIsOrderly(e: Settings, w: Shared, t: Thread, c: Choice)
    requires ThreadOk(e, w, t) && Starts(t) && StartMove(e, w, t, c).0.lawful
    ensures Orderly(w.tables, StartMove(e, w, t, c).0.tables, e.limits.maxAttempts)
  {
    hide L.After, L.Acquired, AfterUpdate, Update, Snapshot, Requested, ReadAgain, ToRecord, Orderly, LifecycleOk, Get;
    OrderlyReflexive(w.tables, e.limits.maxAttempts);
    if t.Starting? && t.seen == t.revision {
      TrueSwap(w.tables, t.op, Started(t.op, t.lease), t.seen, e.limits.maxAttempts);
    }
  }

  lemma CancelIsOrderly(e: Settings, w: Shared, t: Thread, c: Choice)
    requires ThreadOk(e, w, t) && ReadOk(e, t) && Cancels(t) && CancelMove(e, w, t, c).0.lawful
    ensures Orderly(w.tables, CancelMove(e, w, t, c).0.tables, e.limits.maxAttempts)
  {
    hide AfterUpdate, Update, Snapshot, Requested, ReadAgain, ToRecord, Orderly, LifecycleOk, Get;
    OrderlyReflexive(w.tables, e.limits.maxAttempts);
    if t.Cancelling? && t.seen == t.revision {
      TrueSwap(w.tables, t.op, t.op.(state := OpState.Cancelled), t.seen, e.limits.maxAttempts);
    } else if t.Cancelling? && CancelMayReplace(t.op, t.seen, t.revision, e.limits.maxAttempts) {
      LateCancel(w.tables, t.op, t.seen, e.limits.maxAttempts);
    }
  }

  lemma FinishIsOrderly(e: Settings, w: Shared, t: Thread, c: Choice)
    requires ThreadOk(e, w, t) && !Submits(t) && !Starts(t) && !Cancels(t)
    ensures Orderly(w.tables, FinishMove(e, w, t, c).0.tables, e.limits.maxAttempts)
  {
    hide Admits, L.After, AfterUpdate, AfterPut, PutError, Update, MergeYields, Snapshot, Requested, ToRecord;
    hide Orderly, LifecycleOk, EventOf, RequestOf;
    OrderlyReflexive(w.tables, e.limits.maxAttempts);
    match t
    case Publishing(op, lease, receipt) =>
      PutIsOrderly(w.tables, Artifact(receipt, op.id), e.limits.maxAttempts);
    case Completing(op, lease, revision, receipt) =>
      TrueSwap(w.tables, op, op.(state := Completed, result := Some(receipt)), revision, e.limits.maxAttempts);
    case Failing(op, lease, revision, cause) =>
      TrueSwap(w.tables, op, AfterFailure(e, op, cause), revision, e.limits.maxAttempts);
    case _ =>
  }

  lemma MoveIsOrderly(e: Settings, w: Shared, t: Thread, c: Choice)
    requires ThreadOk(e, w, t) && ReadOk(e, t) && Move(e, w, t, c).0.lawful
    ensures Orderly(w.tables, Move(e, w, t, c).0.tables, e.limits.maxAttempts)
  {
    hide SubmitMove, StartMove, FinishMove, CancelMove, ThreadOk, ReadOk, Orderly;
    if Submits(t) {
      SubmitIsOrderly(e, w, t, c);
    } else if Starts(t) {
      StartIsOrderly(e, w, t, c);
    } else if Cancels(t) {
      CancelIsOrderly(e, w, t, c);
    } else {
      FinishIsOrderly(e, w, t, c);
    }
  }

  lemma LifecycleStays(t: Tables, u: Tables, limit: int)
    requires limit >= 1 && Orderly(t, u, limit)
    requires forall id :: id in t.operations ==> LifecycleOk(t.operations[id], limit)
    ensures forall id :: id in u.operations ==> LifecycleOk(u.operations[id], limit)
  {
    forall id | id in u.operations ensures LifecycleOk(u.operations[id], limit) {
      if id in t.operations && Progress(t.operations[id], u.operations[id], limit) {
        ProgressKeepsLifecycle(t.operations[id], u.operations[id], limit);
      }
    }
  }

  // What a Start or a Cancel has read was in order when it was read.
  predicate ReadOk(e: Settings, t: Thread) {
    t.Leasing? || t.Reading? || t.Starting? || t.CancelReading? || t.Cancelling? ==>
      LifecycleOk(ToRecord(t.op).(revision := t.seen), e.limits.maxAttempts)
  }

  // fromRecord undoes toRecord but for the revision, which an Operation does not carry.
  lemma GotRecord(w: Shared, id: string)
    requires CatalogOk(w.tables, w.requests) && Get(w, id).Some?
    ensures ToRecord(Get(w, id).value).(revision := w.tables.operations[id].revision) == w.tables.operations[id]
  {
    hide ValidRequest;
    assert RequestOk(w.tables, id, w.requests[id]);
  }

  lemma MoveReads(e: Settings, w: Shared, t: Thread, c: Choice)
    requires ReadOk(e, t) && CatalogOk(w.tables, w.requests)
    requires forall id :: id in w.tables.operations ==> LifecycleOk(w.tables.operations[id], e.limits.maxAttempts)
    ensures ReadOk(e, Move(e, w, t, c).1)
  {
    hide Admits, ValidRequest, L.After, L.Acquired, Create, AfterCreate, Update, AfterUpdate, PutError, AfterPut;
    hide LifecycleOk, CatalogOk, MergeYields, ToRecord, FromRecord;
    if (t.Looking? || t.CancelLooking?) && Get(w, t.id).Some? {
      GotRecord(w, t.id);
    }
  }

  ghost predicate Lawful(e: Settings, s: State) {
    var t := s.shared.tables;
    && (forall id :: id in t.operations ==> LifecycleOk(t.operations[id], e.limits.maxAttempts))
    && (forall k :: 0 <= k < |s.threads| ==> ReadOk(e, s.threads[k]))
  }

  // A Start or Cancel that replaces what it had read keeps the law and everything that has ended.
  lemma TightKeepsRest(e: Settings, w: Shared, t: Thread, c: Choice)
    requires ThreadOk(e, w, t) && w.endsKept && w.lawful && Move(e, w, t, c).0.tight
    ensures Move(e, w, t, c).0.endsKept && Move(e, w, t, c).0.lawful
  {
    hide SubmitMove, FinishMove, AfterUpdate, L.After, L.Acquired, MergeYields;
    if t.Starting? {
      assert Known(w, t.op, t.seen);
    } else if t.Cancelling? {
      assert Known(w, t.op, t.seen);
    } else {
      MoveLeavesHistory(e, w, t, c);
    }
  }

  // Only the two swaps can end a flag of the history.
  lemma MoveLeavesHistory(e: Settings, w: Shared, t: Thread, c: Choice)
    requires !t.Starting? && !t.Cancelling?
    ensures var v := Move(e, w, t, c).0; v.tight == w.tight && v.lawful == w.lawful && v.endsKept == w.endsKept
  {
    hide Admits, ValidRequest, L.After, L.Acquired, AfterCreate, AfterUpdate, AfterPut, PutError, Update, Create, Get;
  }

  // A flag of the history that is gone does not come back.
  lemma HistoryShrinks(e: Settings, w: Shared, t: Thread, c: Choice)
    ensures var v := Move(e, w, t, c).0;
      (v.tight ==> w.tight) && (v.lawful ==> w.lawful) && (v.endsKept ==> w.endsKept)
  {
    hide SubmitMove, FinishMove, AfterUpdate, Update, L.After, L.Acquired, Get;
    if !t.Starting? && !t.Cancelling? {
      MoveLeavesHistory(e, w, t, c);
    }
  }

  lemma LawfulKept(e: Settings, s: State, k: nat, c: Choice)
    requires Always(e, s) && Lawful(e, s) && Enabled(e, s, Go(k, c)) && e.limits.Positive()
    requires Apply(e, s, Go(k, c)).shared.lawful
    ensures Lawful(e, Apply(e, s, Go(k, c)))
  {
    hide Move, Allowed, Orderly, LifecycleOk, ReadOk, Width, ThreadOk, CatalogOk;
    var w, t, z := s.shared, s.threads[k], Apply(e, s, Go(k, c));
    MoveIsOrderly(e, w, t, c);
    MoveReads(e, w, t, c);
    LifecycleStays(w.tables, z.shared.tables, e.limits.maxAttempts);
  }
}
