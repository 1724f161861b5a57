// What depends only on ended operations staying as they are: artifacts,
// outcome events and the number of active operations.
module Endings {
  import opened Prelude
  import opened Writers
  import opened Catalogs
  import opened Sums
  import opened Operations
  import opened Lifecycle
  import L = Leases

  // The operation is completed with this result.
  ghost predicate CompletedWith(t: Tables, id: string, receipt: CommitReceipt) {
    id in t.operations && t.operations[id].state.Completed? && t.operations[id].result == Some(receipt)
  }

  // An artifact is the result of the operation it names, and that result is
  // what merging the operation's request yields.
  ghost predicate ArtifactOk(e: Settings, w: Shared, f: string, a: Artifact) {
    && a.receipt.fileID == f && CompletedWith(w.tables, a.operationID, a.receipt)
    && a.operationID in w.requests && MergeYields(e.env, w.requests[a.operationID], a.receipt)
  }

  predicate Reports(event: Event, id: string) {
    event.operationID == id && Terminal(event.kind)
  }

  // Completed, failed and cancelled events of one operation.
  ghost function Outcomes(journal: seq<Event>, id: string): int {
    Sum(seq(|journal|, k requires 0 <= k < |journal| => One(Reports(journal[k], id))))
  }

  // The thread has ended the operation and not reported it yet.
  predicate Owes(t: Thread, id: string) {
    || (t.Publishing? && t.op.id == id)
    || (t.Concluding? && t.op.id == id && Terminal(t.op.state))
  }

  ghost function Owing(threads: seq<Thread>, id: string): int {
    Sum(seq(|threads|, k requires 0 <= k < |threads| => One(Owes(threads[k], id))))
  }

  ghost predicate Kept(e: Settings, s: State) {
    var t := s.shared.tables;
    && (forall f :: f in t.artifacts ==> ArtifactOk(e, s.shared, f, t.artifacts[f]))
    && (forall k :: 0 <= k < |s.threads| && s.threads[k].Publishing? ==>
          CompletedWith(t, s.threads[k].op.id, s.threads[k].receipt))
    && (forall id :: OutcomesOk(s, id))
    && |Active(t)| + Width(s.threads) <= e.limits.maxActiveOperations - 1 + s.widest
  }

  ghost predicate OutcomesOk(s: State, id: string) {
    Outcomes(s.shared.journal, id) + Owing(s.threads, id) <= One(Ended(s.shared.tables, id))
  }

  // Nothing that has ended changes again.
  ghost predicate EndsStay(t: Tables, u: Tables) {
    forall id :: Ended(t, id) ==> id in u.operations && u.operations[id] == t.operations[id]
  }

  // An update keeps what has ended exactly when the record it replaces has not.
  lemma UpdateKeepsEndsIff(t: Tables, r: Record, expected: nat)
    ensures EndsStay(t, AfterUpdate(t, r, expected)) <==>
      Update(t, r, expected).Failure? || !Ended(t, r.id)
  {
    var u := AfterUpdate(t, r, expected);
    if Update(t, r, expected).Success? && Ended(t, r.id) {
      assert u.operations[r.id].revision == t.operations[r.id].revision + 1;
    }
  }

  lemma CreateKeepsEnds(t: Tables, r: Record)
    ensures EndsStay(t, AfterCreate(t, r))
  {
  }

  // A run's finish and a Submit's undoing replace a record only if it is the one they know.
  lemma SnapshotNotEnded(t: Tables, op: Op, seen: nat)
    requires Snapshot(t, op, seen) && !Terminal(op.state)
    ensures op.id in t.operations && (t.operations[op.id].revision == seen ==> !Ended(t, op.id))
  {
  }

  lemma SubmitKeepsEnds(e: Settings, w: Shared, t: Thread, c: Choice)
    requires ThreadOk(e, w, t) && Submits(t)
    ensures EndsStay(w.tables, SubmitMove(e, w, t, c).0.tables)
  {
    hide Admits, ValidRequest, Create, AfterCreate, AfterUpdate, Snapshot, Requested, ToRecord;
    match t
    case Creating(request) =>
      hide EndsStay;
      EndsStaySame(w.tables);
      CreateKeepsEnds(w.tables, ToRecord(NewOp(c.id, request)));
    case Undoing(op) =>
      SnapshotNotEnded(w.tables, op, 1);
      RecordID(op.(state := Failed));
      UpdateKeepsEndsIff(w.tables, ToRecord(op.(state := Failed)), 1);
    case _ =>
  }

  lemma RecordID(op: Op)
    ensures ToRecord(op).id == op.id
  {
  }

  lemma EndsStaySame(t: Tables)
    ensures EndsStay(t, t)
  {
  }

  lemma FinishKeepsEnds(e: Settings, w: Shared, t: Thread, c: Choice)
    requires ThreadOk(e, w, t) && !Submits(t) && !Starts(t) && !Cancels(t)
    ensures EndsStay(w.tables, FinishMove(e, w, t, c).0.tables)
  {
    hide Admits, L.After, AfterUpdate, PutError, MergeYields, Snapshot, Requested, EndsStay, EventOf, RequestOf;
    hide AfterPut;
    EndsStaySame(w.tables);
    match t
    case Completing(op, lease, revision, receipt) =>
      SnapshotNotEnded(w.tables, op, revision);
      UpdateKeepsEndsIff(w.tables, ToRecord(op.(state := Completed, result := Some(receipt))), revision);
    case Failing(op, lease, revision, cause) =>
      SnapshotNotEnded(w.tables, op, revision);
      UpdateKeepsEndsIff(w.tables, ToRecord(AfterFailure(e, op, cause)), revision);
    case Publishing(op, lease, receipt) => PutKeepsEnds(w.tables, Artifact(receipt, op.id));
    case _ =>
  }

  lemma PutKeepsEnds(t: Tables, a: Artifact)
    ensures EndsStay(t, AfterPut(t, a))
  {
  }

  // A swap of a Start or a Cancel, by what the record it found was.
  lemma SwapKeepsEnds(e: Settings, w: Shared, t: Thread, c: Choice)
    requires t.Starting? || t.Cancelling?
    ensures var v := Move(e, w, t, c).0;
      v == w || (EndsStay(w.tables, v.tables) <==> !Ended(w.tables, t.op.id))
    ensures var v := Move(e, w, t, c).0;
      v == w || v.endsKept == (w.endsKept && !Ended(w.tables, t.op.id))
  {
    hide SubmitMove, FinishMove, EndsStay, AfterUpdate;
    var next := if t.Starting? then Started(t.op, t.lease) else t.op.(state := OpState.Cancelled);
    UpdateKeepsEndsIff(w.tables, ToRecord(next), t.revision);
  }

  // Every other step keeps what has ended.
  lemma PlainMoveKeepsEnds(e: Settings, w: Shared, t: Thread, c: Choice)
    requires ThreadOk(e, w, t) && !t.Starting? && !t.Cancelling?
    ensures EndsStay(w.tables, Move(e, w, t, c).0.tables)
  {
    hide SubmitMove, FinishMove, EndsStay, ThreadOk, Get, L.After, L.Acquired;
    EndsStaySame(w.tables);
    if Submits(t) {
      SubmitKeepsEnds(e, w, t, c);
    } else if !Starts(t) && !Cancels(t) {
      FinishKeepsEnds(e, w, t, c);
    }
  }

  lemma MoveKeepsEnds(e: Settings, w: Shared, t: Thread, c: Choice)
    requires ThreadOk(e, w, t) && Move(e, w, t, c).0.endsKept
    ensures w.endsKept && EndsStay(w.tables, Move(e, w, t, c).0.tables)
  {
    hide Move, EndsStay, ThreadOk;
    EndsStaySame(w.tables);
    HistoryShrinks(e, w, t, c);
    if t.Starting? || t.Cancelling? {
      SwapKeepsEnds(e, w, t, c);
    } else {
      PlainMoveKeepsEnds(e, w, t, c);
    }
  }

  lemma MovePublishes(e: Settings, w: Shared, t: Thread, c: Choice)
    requires ThreadOk(e, w, t)
    ensures var (v, u) := Move(e, w, t, c);
      && (u.Publishing? ==> CompletedWith(v.tables, u.op.id, u.receipt))
      && forall f :: f in v.tables.artifacts ==>
           || (f in w.tables.artifacts && v.tables.artifacts[f] == w.tables.artifacts[f])
           || (t.Publishing? && f == t.receipt.fileID && v.tables.artifacts[f] == Artifact(t.receipt, t.op.id))
  {
    hide Admits, ValidRequest, L.After, L.Acquired, Create, Snapshot, Requested, ReadAgain, MergeYields;
  }

  lemma OutcomesMore(journal: seq<Event>, event: Event, id: string)
    ensures Outcomes(journal + [event], id) == Outcomes(journal, id) + One(Reports(event, id))
  {
    var counts := seq(|journal|, k requires 0 <= k < |journal| => One(Reports(journal[k], id)));
    var longer := journal + [event];
    assert seq(|longer|, k requires 0 <= k < |longer| => One(Reports(longer[k], id)))
      == counts + [One(Reports(event, id))];
    SumAppend(counts, One(Reports(event, id)));
  }

  // An update of an operation that has not ended ends it exactly when the new state is terminal.
  lemma SwapEnds(t: Tables, op: Op, revision: nat, id: string)
    requires op.id in t.operations && (t.operations[op.id].revision == revision ==> !Ended(t, op.id))
    ensures var u := AfterUpdate(t, ToRecord(op), revision);
      if Update(t, ToRecord(op), revision).Success?
      then One(Ended(u, id)) == One(Ended(t, id)) + One(id == op.id && Terminal(op.state))
      else u == t
  {
  }

  lemma CreateEnds(t: Tables, id': string, request: Request, id: string)
    ensures var u := AfterCreate(t, ToRecord(NewOp(id', request)));
      && Ended(u, id) == Ended(t, id)
      && |Active(u)| <= |Active(t)| + 1
  {
    var u := AfterCreate(t, ToRecord(NewOp(id', request)));
    assert Active(u) <= Active(t) + {id'};
    SubsetSize(Active(u), Active(t) + {id'});
  }

  lemma {:induction false} SubsetSize<T>(a: set<T>, b: set<T>)
    requires a <= b
    ensures |a| <= |b|
  {
    if a == {} {
    } else {
      var x :| x in a;
      SubsetSize(a - {x}, b - {x});
    }
  }

  lemma PutEnds(t: Tables, a: Artifact, id: string)
    ensures Ended(AfterPut(t, a), id) == Ended(t, id) && Active(AfterPut(t, a)) == Active(t)
  {
  }

  // Every outcome reported or owed is paid for by an operation that ended.
  ghost predicate OwesKept(w: Shared, t: Thread, v: Shared, u: Thread, id: string) {
    Outcomes(v.journal, id) + One(Owes(u, id)) + One(Ended(w.tables, id))
      <= Outcomes(w.journal, id) + One(Owes(t, id)) + One(Ended(v.tables, id))
  }

  lemma KnownIsStored(w: Shared, op: Op, seen: nat)
    requires Known(w, op, seen)
    ensures op.id in w.tables.operations
  {
  }

  lemma SubmitOwes(e: Settings, w: Shared, t: Thread, c: Choice, id: string)
    requires ThreadOk(e, w, t) && Submits(t)
    ensures var (v, u) := SubmitMove(e, w, t, c); OwesKept(w, t, v, u, id)
  {
    hide Admits, ValidRequest, Create, AfterCreate, AfterUpdate, Snapshot, Requested, ToRecord, Outcomes, Ended;
    match t
    case Creating(request) => CreateEnds(w.tables, c.id, request, id);
    case Accepting(op) => OutcomesMore(w.journal, EventOf(op), id);
    case Undoing(op) =>
      SnapshotNotEnded(w.tables, op, 1);
      SwapEnds(w.tables, op.(state := Failed), 1, id);
    case _ =>
  }

  lemma StartOwes(e: Settings, w: Shared, t: Thread, c: Choice, id: string)
    requires ThreadOk(e, w, t) && Starts(t)
    ensures var (v, u) := StartMove(e, w, t, c); v.endsKept ==> OwesKept(w, t, v, u, id)
  {
    hide L.After, L.Acquired, Update, AfterUpdate, Snapshot, Requested, ReadAgain, ToRecord, Outcomes, Ended;
    if t.Starting? && !Ended(w.tables, t.op.id) {
      KnownIsStored(w, t.op, t.seen);
      SwapEnds(w.tables, Started(t.op, t.lease), t.revision, id);
    }
  }

  lemma CancelOwes(e: Settings, w: Shared, t: Thread, c: Choice, id: string)
    requires ThreadOk(e, w, t) && Cancels(t)
    ensures var (v, u) := CancelMove(e, w, t, c); v.endsKept ==> OwesKept(w, t, v, u, id)
  {
    hide Update, AfterUpdate, Snapshot, Requested, ReadAgain, ToRecord, Outcomes, Ended;
    if t.Cancelling? && !Ended(w.tables, t.op.id) {
      KnownIsStored(w, t.op, t.seen);
      SwapEnds(w.tables, t.op.(state := OpState.Cancelled), t.revision, id);
    }
  }

  lemma FinishOwes(e: Settings, w: Shared, t: Thread, c: Choice, id: string)
    requires ThreadOk(e, w, t) && !Submits(t) && !Starts(t) && !Cancels(t)
    ensures var (v, u) := FinishMove(e, w, t, c); OwesKept(w, t, v, u, id)
  {
    hide Admits, L.After, AfterUpdate, AfterPut, PutError, Update, MergeYields, Snapshot, Requested, ToRecord;
    hide Outcomes, Ended;
    match t
    case Noting(op, lease, revision) => OutcomesMore(w.journal, EventOf(op), id);
    case Completing(op, lease, revision, receipt) =>
      SnapshotNotEnded(w.tables, op, revision);
      SwapEnds(w.tables, op.(state := Completed, result := Some(receipt)), revision, id);
    case Failing(op, lease, revision, cause) =>
      SnapshotNotEnded(w.tables, op, revision);
      SwapEnds(w.tables, AfterFailure(e, op, cause), revision, id);
    case Publishing(op, lease, receipt) => PutEnds(w.tables, Artifact(receipt, op.id), id);
    case Concluding(op, held) => OutcomesMore(w.journal, EventOf(op), id);
    case _ =>
  }

  lemma MoveOwes(e: Settings, w: Shared, t: Thread, c: Choice, id: string)
    requires ThreadOk(e, w, t)
    ensures var (v, u) := Move(e, w, t, c); v.endsKept ==> OwesKept(w, t, v, u, id)
  {
    hide SubmitMove, StartMove, FinishMove, CancelMove, OwesKept, ThreadOk;
    if Submits(t) {
      SubmitOwes(e, w, t, c, id);
    } else if Starts(t) {
      StartOwes(e, w, t, c, id);
    } else if Cancels(t) {
      CancelOwes(e, w, t, c, id);
    } else {
      FinishOwes(e, w, t, c, id);
    }
  }

  lemma UpdateKeys(t: Tables, r: Record, expected: nat)
    ensures AfterUpdate(t, r, expected).operations.Keys == t.operations.Keys
  {
  }

  lemma FinishKeys(e: Settings, w: Shared, t: Thread, c: Choice)
    ensures FinishMove(e, w, t, c).0.tables.operations.Keys == w.tables.operations.Keys
  {
    hide Admits, L.After, AfterUpdate, PutError, Update, ToRecord, EventOf, RequestOf;
    match t
    case Completing(op, lease, revision, receipt) =>
      UpdateKeys(w.tables, ToRecord(op.(state := Completed, result := Some(receipt))), revision);
    case Failing(op, lease, revision, cause) => UpdateKeys(w.tables, ToRecord(AfterFailure(e, op, cause)), revision);
    case _ =>
  }

  // Only the creating step of a Submit adds an operation.
  lemma MoveKeys(e: Settings, w: Shared, t: Thread, c: Choice)
    requires !t.Creating?
    ensures Move(e, w, t, c).0.tables.operations.Keys == w.tables.operations.Keys
  {
    hide SubmitMove, StartMove, CancelMove, FinishMove;
    if Submits(t) {
      SubmitKeys(e, w, t, c);
    } else if Starts(t) || Cancels(t) {
      SwapKeys(e, w, t, c);
    } else {
      FinishKeys(e, w, t, c);
    }
  }

  lemma SubmitKeys(e: Settings, w: Shared, t: Thread, c: Choice)
    requires !t.Creating?
    ensures SubmitMove(e, w, t, c).0.tables.operations.Keys == w.tables.operations.Keys
  {
    hide Admits, ValidRequest, AfterUpdate, ToRecord, EventOf;
    if t.Undoing? {
      UpdateKeys(w.tables, ToRecord(t.op.(state := Failed)), 1);
    }
  }

  lemma SwapKeys(e: Settings, w: Shared, t: Thread, c: Choice)
    ensures StartMove(e, w, t, c).0.tables.operations.Keys == w.tables.operations.Keys
    ensures CancelMove(e, w, t, c).0.tables.operations.Keys == w.tables.operations.Keys
  {
    hide L.After, L.Acquired, AfterUpdate, Update, ToRecord, Get, Resource;
    if t.Starting? {
      UpdateKeys(w.tables, ToRecord(Started(t.op, t.lease)), t.revision);
    } else if t.Cancelling? {
      UpdateKeys(w.tables, ToRecord(t.op.(state := OpState.Cancelled)), t.revision);
    }
  }

  lemma ActiveShrinks(t: Tables, u: Tables)
    requires EndsStay(t, u) && u.operations.Keys == t.operations.Keys
    ensures |Active(u)| <= |Active(t)|
  {
    assert Active(u) <= Active(t);
    SubsetSize(Active(u), Active(t));
  }

  // A thread's step keeps the sum of active operations and admitted Submits,
  // except where a Submit is admitted, and there was room for it.
  ghost predicate WidthKept(e: Settings, w: Shared, t: Thread, v: Shared, u: Thread) {
    || |Active(v.tables)| + One(u.Creating?) <= |Active(w.tables)| + One(t.Creating?)
    || (v == w && |Active(w.tables)| < e.limits.maxActiveOperations)
  }

  lemma MoveWidth(e: Settings, w: Shared, t: Thread, c: Choice)
    requires ThreadOk(e, w, t) && Move(e, w, t, c).0.endsKept
    ensures var (v, u) := Move(e, w, t, c); WidthKept(e, w, t, v, u)
  {
    if t.Creating? || t.Admitting? {
      LoadCountsActive(w.tables);
      hide ValidRequest, Create, AfterCreate, CurrentLoad, Active, ToRecord;
      if t.Creating? {
        CreateEnds(w.tables, c.id, t.request, "");
      }
    } else {
      hide Move, EndsStay, ThreadOk;
      MoveKeepsEnds(e, w, t, c);
      MoveKeys(e, w, t, c);
      ActiveShrinks(w.tables, Move(e, w, t, c).0.tables);
      MoveAdmits(e, w, t, c);
    }
  }

  lemma MoveAdmits(e: Settings, w: Shared, t: Thread, c: Choice)
    requires !t.Admitting?
    ensures !Move(e, w, t, c).1.Creating? || t.Creating?
  {
    hide Admits, ValidRequest, L.After, L.Acquired, AfterUpdate, PutError, Update, ToRecord, Create, AfterCreate;
  }

  // ---------- Every step keeps it ----------

  lemma WidthSet(threads: seq<Thread>, k: nat, u: Thread)
    requires k < |threads|
    ensures Width(threads[k := u]) == Width(threads) - One(threads[k].Creating?) + One(u.Creating?)
  {
    var counts := seq(|threads|, i requires 0 <= i < |threads| => One(threads[i].Creating?));
    var after := threads[k := u];
    assert seq(|after|, i requires 0 <= i < |after| => One(after[i].Creating?)) == counts[k := One(u.Creating?)];
    SumUpdate(counts, k, One(u.Creating?));
  }

  lemma OwingSet(threads: seq<Thread>, k: nat, u: Thread, id: string)
    requires k < |threads|
    ensures Owing(threads[k := u], id) == Owing(threads, id) - One(Owes(threads[k], id)) + One(Owes(u, id))
  {
    var counts := seq(|threads|, i requires 0 <= i < |threads| => One(Owes(threads[i], id)));
    var after := threads[k := u];
    assert seq(|after|, i requires 0 <= i < |after| => One(Owes(after[i], id))) == counts[k := One(Owes(u, id))];
    SumUpdate(counts, k, One(Owes(u, id)));
  }

  // A call that has just arrived counts for nothing.
  lemma ArrivalCounts(threads: seq<Thread>, t: Thread, id: string)
    requires t.Admitting? || t.Looking? || t.CancelLooking?
    ensures Width(threads + [t]) == Width(threads) && Owing(threads + [t], id) == Owing(threads, id)
  {
    var after := threads + [t];
    var width := seq(|threads|, i requires 0 <= i < |threads| => One(threads[i].Creating?));
    var owing := seq(|threads|, i requires 0 <= i < |threads| => One(Owes(threads[i], id)));
    assert seq(|after|, i requires 0 <= i < |after| => One(after[i].Creating?)) == width + [0];
    assert seq(|after|, i requires 0 <= i < |after| => One(Owes(after[i], id))) == owing + [0];
    SumAppend(width, 0);
    SumAppend(owing, 0);
  }

  ghost predicate Inv(e: Settings, s: State) {
    && Always(e, s) && Width(s.threads) <= s.widest
    && (s.shared.endsKept ==> Kept(e, s)) && (s.shared.lawful ==> Lawful(e, s))
    && (s.shared.tight ==> s.shared.lawful && s.shared.endsKept)
  }

  lemma CompletedWithStays(t: Tables, u: Tables, id: string, receipt: CommitReceipt)
    requires EndsStay(t, u) && CompletedWith(t, id, receipt)
    ensures CompletedWith(u, id, receipt)
  {
    assert Ended(t, id);
  }

  lemma ArtifactsKept(e: Settings, s: State, k: nat, c: Choice)
    requires Always(e, s) && Kept(e, s) && k < |s.threads| && Allowed(e, s.shared, s.threads[k], c)
    requires Move(e, s.shared, s.threads[k], c).0.endsKept
    ensures var v := Move(e, s.shared, s.threads[k], c).0;
      forall f :: f in v.tables.artifacts ==> ArtifactOk(e, v, f, v.tables.artifacts[f])
  {
    hide Move, Allowed, MergeYields, CompletedWith, CatalogOk, OutcomesOk, EndsStay, Active, Width;
    var w, t := s.shared, s.threads[k];
    MoveOk(e, w, t, c);
    MoveKeepsEnds(e, w, t, c);
    MovePublishes(e, w, t, c);
    assert ThreadOk(e, w, t);
    var v := Move(e, w, t, c).0;
    assert t.Publishing? ==> CompletedWith(w.tables, t.op.id, t.receipt);
    assert Onward(w, v);
    hide Onward, ThreadOk;
    forall f | f in v.tables.artifacts ensures ArtifactOk(e, v, f, v.tables.artifacts[f]) {
      var a := v.tables.artifacts[f];
      if f in w.tables.artifacts && a == w.tables.artifacts[f] {
        assert ArtifactOk(e, w, f, a);
      }
      RequestStays(w, v, a.operationID);
      CompletedWithStays(w.tables, v.tables, a.operationID, a.receipt);
    }
  }

  lemma RequestStays(w: Shared, v: Shared, id: string)
    requires Onward(w, v)
    ensures id in w.requests ==> id in v.requests && v.requests[id] == w.requests[id]
  {
  }

  lemma PublishingKept(e: Settings, s: State, k: nat, c: Choice)
    requires Always(e, s) && Kept(e, s) && k < |s.threads| && Allowed(e, s.shared, s.threads[k], c)
    requires Move(e, s.shared, s.threads[k], c).0.endsKept
    ensures var (v, u) := Move(e, s.shared, s.threads[k], c);
      var threads := s.threads[k := u];
      forall j :: 0 <= j < |threads| && threads[j].Publishing? ==>
        CompletedWith(v.tables, threads[j].op.id, threads[j].receipt)
  {
    hide Move, Allowed, CompletedWith, CatalogOk, OutcomesOk, EndsStay, ThreadOk, ArtifactOk, Active, Width;
    var w, t := s.shared, s.threads[k];
    MoveKeepsEnds(e, w, t, c);
    MovePublishes(e, w, t, c);
    var v := Move(e, w, t, c).0;
    forall j | 0 <= j < |s.threads| && j != k && s.threads[j].Publishing?
      ensures CompletedWith(v.tables, s.threads[j].op.id, s.threads[j].receipt)
    {
      CompletedWithStays(w.tables, v.tables, s.threads[j].op.id, s.threads[j].receipt);
    }
  }

  lemma KeptKept(e: Settings, s: State, k: nat, c: Choice)
    requires Always(e, s) && Kept(e, s) && Width(s.threads) <= s.widest && Enabled(e, s, Go(k, c))
    requires Apply(e, s, Go(k, c)).shared.endsKept
    ensures Kept(e, Apply(e, s, Go(k, c)))
  {
    hide Move, Allowed, EndsStay, ArtifactOk, Active, Width, CompletedWith, ThreadOk, CatalogOk;
    var w, t, z := s.shared, s.threads[k], Apply(e, s, Go(k, c));
    var u := z.threads[k];
    ArtifactsKept(e, s, k, c);
    PublishingKept(e, s, k, c);
    MoveWidth(e, w, t, c);
    WidthSet(s.threads, k, u);
    forall id ensures OutcomesOk(z, id) {
      MoveOwes(e, w, t, c, id);
      OwingSet(s.threads, k, u, id);
      assert OutcomesOk(s, id);
    }
  }

  lemma InvKept(e: Settings, s: State, a: Action)
    requires Inv(e, s) && Enabled(e, s, a) && e.limits.Positive()
    ensures Inv(e, Apply(e, s, a))
  {
    hide Move, Kept, Lawful, CatalogOk, ThreadOk;
    AlwaysKept(e, s, a);
    if a.Go? {
      assert ThreadOk(e, s.shared, s.threads[a.k]);
      HistoryShrinks(e, s.shared, s.threads[a.k], a.choice);
      hide Always;
      if Apply(e, s, a).shared.endsKept {
        KeptKept(e, s, a.k, a.choice);
      }
      if Apply(e, s, a).shared.lawful {
        LawfulKept(e, s, a.k, a.choice);
      }
      if Apply(e, s, a).shared.tight {
        TightKeepsRest(e, s.shared, s.threads[a.k], a.choice);
      }
    } else {
      IdleKept(e, s, a);
    }
  }

  lemma IdleKept(e: Settings, s: State, a: Action)
    requires Inv(e, s) && Enabled(e, s, a) && !a.Go?
    ensures var z := Apply(e, s, a);
      && Width(z.threads) <= s.widest
      && (s.shared.endsKept ==> Kept(e, z)) && (s.shared.lawful ==> Lawful(e, z))
  {
    hide L.After, Always, LifecycleOk, MergeYields, Owing, Outcomes, Width, Active;
    var z := Apply(e, s, a);
    if a.Arrive? {
      ArrivalCounts(s.threads, a.thread, "");
    }
    forall id | s.shared.endsKept ensures OutcomesOk(z, id) {
      assert OutcomesOk(s, id);
      if a.Arrive? {
        ArrivalCounts(s.threads, a.thread, id);
      }
    }
  }
}
