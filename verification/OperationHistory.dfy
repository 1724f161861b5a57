// What a user of the operation service can rely on, over all its runs.
module OperationHistory {
  import opened Prelude
  import opened Manifests
  import opened Policies
  import opened Catalogs
  import opened Operations
  import opened Lifecycle
  import opened Endings
  import opened Sums
  import MergeHistory
  import MergeMachine
  import MergeInvariant
  import Loading
  import L = Leases

  lemma InitialInv(e: Settings)
    requires e.limits.Positive()
    ensures Inv(e, INITIAL)
  {
    assert Active(EMPTY) == {};
    forall id ensures OutcomesOk(INITIAL, id) {
    }
  }

  lemma StepKeepsInv(e: Settings, s: State, t: State)
    requires Inv(e, s) && e.limits.Positive() && (exists a :: Enabled(e, s, a) && t == Apply(e, s, a))
    ensures Inv(e, t) && Onward(s.shared, t.shared)
  {
    var a :| Enabled(e, s, a) && t == Apply(e, s, a);
    InvKept(e, s, a);
    AlwaysKept(e, s, a);
  }

  lemma {:induction false} RunInv(e: Settings, run: seq<State>, i: nat)
    requires IsRun(e, run) && e.limits.Positive() && i < |run|
    ensures Inv(e, run[i])
  {
    if i == 0 {
      InitialInv(e);
    } else {
      RunInv(e, run, i - 1);
      assert StepAt(e, run, i - 1);
      StepKeepsInv(e, run[i - 1], run[i]);
    }
  }

  // ---------- Always, whatever the interleaving ----------

  lemma OnwardTransitive(u: Shared, v: Shared, w: Shared)
    requires Onward(u, v) && Onward(v, w)
    ensures Onward(u, w)
  {
  }

  // Revisions only grow and a revision never stands for two different records;
  // keys, identities, requests and artifacts never change once stored.
  lemma {:induction false} NothingIsRewritten(e: Settings, run: seq<State>, i: nat, j: nat)
    requires IsRun(e, run) && e.limits.Positive() && i <= j < |run|
    ensures Onward(run[i].shared, run[j].shared)
  {
    if i == j {
      QuietOnward(run[i].shared);
    } else {
      NothingIsRewritten(e, run, i, j - 1);
      RunInv(e, run, j - 1);
      assert StepAt(e, run, j - 1);
      StepKeepsInv(e, run[j - 1], run[j]);
      OnwardTransitive(run[i].shared, run[j - 1].shared, run[j].shared);
    }
  }

  lemma QuietOnward(w: Shared)
    ensures Onward(w, w)
  {
    GrownReflexive(w.tables);
  }

  // The record a finishing run is about to store, and the revision it expects.
  predicate Finishes(t: Thread) {
    t.Completing? || t.Failing?
  }

  function Outcome(e: Settings, t: Thread): Op
    requires Finishes(t)
  {
    if t.Completing? then t.op.(state := Completed, result := Some(t.receipt)) else AfterFailure(e, t.op, t.cause)
  }

  lemma FinishStep(e: Settings, w: Shared, t: Thread, c: Choice)
    requires ThreadOk(e, w, t) && Finishes(t)
    ensures var (v, u) := Move(e, w, t, c);
      var stored := w.tables.operations;
      && t.op.id in stored
      && (if stored[t.op.id] == ToRecord(t.op).(revision := t.revision) then
            v.tables.operations == stored[t.op.id := ToRecord(Outcome(e, t)).(revision := t.revision + 1)]
          else v == w && u == Leaving(t.lease))
  {
    hide MergeYields;
  }

  // A finisher takes effect exactly when the record is still, to the letter, the
  // one its Start stored; otherwise it changes nothing anybody can see.
  lemma FinishIffUnchanged(e: Settings, run: seq<State>, i: nat, k: nat, c: Choice)
    requires IsRun(e, run) && e.limits.Positive() && i < |run|
    requires k < |run[i].threads| && Finishes(run[i].threads[k]) && Enabled(e, run[i], Go(k, c))
    ensures var s, t := run[i], run[i].threads[k];
      var z := Apply(e, s, Go(k, c));
      var stored := s.shared.tables.operations;
      && t.op.id in stored
      && (if stored[t.op.id] == ToRecord(t.op).(revision := t.revision) then
            z.shared.tables.operations ==
              stored[t.op.id := ToRecord(Outcome(e, t)).(revision := t.revision + 1)]
          else z.shared == s.shared && z.threads[k] == Leaving(t.lease))
  {
    hide Move, MergeYields, Allowed, Width, ToRecord, ThreadOk, Lawful, CatalogOk;
    RunInv(e, run, i);
    FinishStep(e, run[i].shared, run[i].threads[k], c);
  }

  // What a finish stores, said of the record alone: one more revision of it, as
  // completed with the merge's receipt, or as retrying when the failure is
  // transient and attempts are left, and as failed otherwise. It takes effect
  // exactly when the record is at the revision its Start stored.
  lemma FinishStores(e: Settings, run: seq<State>, i: nat, k: nat, c: Choice)
    requires IsRun(e, run) && e.limits.Positive() && i < |run|
    requires k < |run[i].threads| && Finishes(run[i].threads[k]) && Enabled(e, run[i], Go(k, c))
    ensures var s, t, z := run[i], run[i].threads[k], Apply(e, run[i], Go(k, c));
      var stored := s.shared.tables.operations;
      && t.op.id in stored
      && var r := stored[t.op.id];
         if r.revision != t.revision then z.shared == s.shared
         else
           && r.attempt == t.op.attempt && r.state.Running?
           && z.shared == s.shared.(tables := s.shared.tables.(operations := z.shared.tables.operations))
           && z.shared.tables.operations ==
                if t.Completing? then
                  stored[t.op.id := r.(state := Completed, result := Some(t.receipt), revision := r.revision + 1)]
                else if t.cause == Transient && r.attempt < e.limits.maxAttempts then
                  stored[t.op.id := r.(state := Retrying, revision := r.revision + 1)]
                else
                  stored[t.op.id := r.(state := Failed, revision := r.revision + 1)]
  {
    hide Move, MergeYields, Allowed, Width, Lawful, CatalogOk;
    RunInv(e, run, i);
    var w, t := run[i].shared, run[i].threads[k];
    assert Known(w, t.op, t.revision) && t.op.state.Running?;
    FinishStep(e, w, t, c);
    FinishTouches(e, w, t, c);
    if t.Failing? {
      RetryIff(e.limits, t.op.attempt, t.cause);
    }
    hide ThreadOk, Retry;
  }

  lemma FinishTouches(e: Settings, w: Shared, t: Thread, c: Choice)
    requires Finishes(t)
    ensures var v := Move(e, w, t, c).0;
      v == w.(tables := w.tables.(operations := v.tables.operations))
  {
    hide SubmitMove, StartMove, CancelMove, AfterFailure, ToRecord, Update, MergeYields;
  }

  // A run looks no further exactly when the context has expired, the operation
  // or its request is unknown, or it is neither accepted nor waiting for a retry;
  // a cancel, when it has ended.
  lemma LookGoesOnIff(e: Settings, w: Shared, t: Thread, c: Choice)
    requires t.Looking? || t.CancelLooking?
    ensures var (v, u) := Move(e, w, t, c);
      && v == w
      && (if c.ok && t.id in w.tables.operations && t.id in w.requests
             && var state := w.tables.operations[t.id].state;
                if t.Looking? then state == Accepted || state == Retrying
                else state != Completed && state != Failed && state != OpState.Cancelled
          then (u.Leasing? || u.CancelReading?) && u.op.id == w.tables.operations[t.id].id
            && u.seen == w.tables.operations[t.id].revision
          else u == Gone)
  {
    hide SubmitMove, FinishMove;
  }

  // The lease manager has no say in this: with any other ledger, one in which the
  // run's lease expired and went to someone else included, a run finishes and
  // publishes just the same.
  lemma LostLeaseStillPublishes(e: Settings, w: Shared, t: Thread, c: Choice, other: L.Ledger)
    requires Finishes(t) || t.Publishing?
    ensures var (v, u), (v', u') := Move(e, w, t, c), Move(e, w.(ledger := other), t, c);
      u' == u && v' == v.(ledger := other)
  {
    hide Update, AfterUpdate, PutError, AfterPut, ToRecord, AfterFailure, EventOf, L.After;
  }

  // So if any update of the operation lands between a Start and its finish, the
  // finish leaves catalog, artifacts and journal as they are.
  lemma SupersededFinishDoesNothing(e: Settings, run: seq<State>, i: nat, j: nat, k: nat, c: Choice)
    requires IsRun(e, run) && e.limits.Positive() && i <= j < |run|
    requires k < |run[j].threads| && Finishes(run[j].threads[k]) && Enabled(e, run[j], Go(k, c))
    requires var t := run[j].threads[k];
      t.op.id in run[i].shared.tables.operations && run[i].shared.tables.operations[t.op.id].revision > t.revision
    ensures Apply(e, run[j], Go(k, c)).shared == run[j].shared
  {
    NothingIsRewritten(e, run, i, j);
    FinishIffUnchanged(e, run, j, k, c);
  }

  // No update the service attempts is ever refused for its identity or because
  // the operation is missing: a stale revision is the only reason.
  lemma OnlyStaleRevisionsAreRefused(e: Settings, run: seq<State>, i: nat, k: nat)
    requires IsRun(e, run) && e.limits.Positive() && i < |run| && k < |run[i].threads|
    ensures var t, tables := run[i].threads[k], run[i].shared.tables;
      && (Finishes(t) ==>
            OnlyStale(tables, ToRecord(Outcome(e, t)), t.revision))
      && (t.Starting? ==> OnlyStale(tables, ToRecord(Started(t.op, t.lease)), t.revision))
      && (t.Cancelling? ==> OnlyStale(tables, ToRecord(t.op.(state := OpState.Cancelled)), t.revision))
      && (t.Undoing? ==> OnlyStale(tables, ToRecord(t.op.(state := Failed)), 1))
  {
    RunInv(e, run, i);
    assert ThreadOk(e, run[i].shared, run[i].threads[k]);
  }

  // The transition table read by its columns: what each state can be reached from.
  lemma TransitionTable(s: OpState, next: OpState)
    ensures MayBecome(s, next) <==>
      match next
      case Accepted => false
      case Running => s == Accepted || s == Retrying
      case Completed => s == Running
      case Retrying => s == Running
      case Failed => s != Completed && s != Failed && s != OpState.Cancelled
      case Cancelled => s != Completed && s != Failed && s != OpState.Cancelled
    ensures CanStart(s) <==> MayBecome(s, Running)
    ensures Terminal(s) <==> !exists t :: MayBecome(s, t)
  {
    assert MayBecome(s, Failed) || Terminal(s);
  }

  // No call ever asks for a transition the table refuses, so the invalid
  // transition error can only come from CanStart and Terminal.
  lemma TransitionsNeverRefused(e: Settings, run: seq<State>, i: nat, k: nat)
    requires IsRun(e, run) && e.limits.Positive() && i < |run| && k < |run[i].threads|
    ensures var t := run[i].threads[k];
      && (t.Leasing? || t.Reading? || t.Starting? ==> MayBecome(t.op.state, Running))
      && (t.CancelReading? || t.Cancelling? ==> MayBecome(t.op.state, OpState.Cancelled))
      && (t.Undoing? ==> MayBecome(t.op.state, Failed))
      && (Finishes(t) ==> MayBecome(t.op.state, Outcome(e, t).state))
  {
    RunInv(e, run, i);
    assert ThreadOk(e, run[i].shared, run[i].threads[k]);
    hide Retry, MergeYields;
  }

  predicate OnlyStale(t: Tables, r: Record, expected: nat) {
    var u := Update(t, r, expected);
    && r.id in t.operations
    && (u.Success? <==> t.operations[r.id].revision == expected)
    && (u.Failure? ==> u.error == RevisionConflict)
  }

  // Keys and operations are in bijection, and every stored record belongs to the
  // file and the key of the request it was submitted with.
  lemma IndexesAgree(e: Settings, run: seq<State>, i: nat)
    requires IsRun(e, run) && e.limits.Positive() && i < |run|
    ensures Paired(run[i].shared.tables)
    ensures forall id :: id in run[i].shared.requests ==>
      RequestOk(run[i].shared.tables, id, run[i].shared.requests[id])
  {
    RunInv(e, run, i);
  }

  // ---------- While every Start and Cancel replaced what it may ----------

  // State, attempt and revision of every record are locked together.
  lemma LifecycleHolds(e: Settings, run: seq<State>, i: nat, id: string)
    requires IsRun(e, run) && e.limits.Positive() && i < |run| && run[i].shared.lawful
    requires id in run[i].shared.tables.operations
    ensures var r, limit := run[i].shared.tables.operations[id], e.limits.maxAttempts;
      LifecycleOk(r, limit) && r.attempt <= limit && r.revision <= 2 * limit + 1
  {
    RunInv(e, run, i);
  }

  ghost predicate InOrder(e: Settings, t: Tables) {
    forall id :: id in t.operations ==> LifecycleOk(t.operations[id], e.limits.maxAttempts)
  }

  // The flag is exact: it holds as long as, and no longer than, every record in
  // every state so far obeys the law.
  lemma {:induction false} LawfulIff(e: Settings, run: seq<State>, i: nat)
    requires IsRun(e, run) && e.limits.Positive() && i < |run|
    ensures run[i].shared.lawful <==> forall k :: 0 <= k <= i ==> InOrder(e, run[k].shared.tables)
  {
    hide Inv, Move, Apply, Enabled, InOrder, INITIAL;
    RunInv(e, run, i);
    InvInOrder(e, run[i]);
    if i == 0 {
      assert run[0] == INITIAL;
      FirstLawful();
    } else {
      LawfulIff(e, run, i - 1);
      RunInv(e, run, i - 1);
      assert StepAt(e, run, i - 1);
      LawfulStep(e, run[i - 1], run[i]);
    }
  }

  lemma FirstLawful()
    ensures INITIAL.shared.lawful
  {
  }

  lemma InvInOrder(e: Settings, s: State)
    requires Inv(e, s)
    ensures s.shared.lawful ==> InOrder(e, s.shared.tables)
  {
  }

  // A step that ends the flag stores a record that breaks the law.
  lemma LawfulStep(e: Settings, s: State, t: State)
    requires Inv(e, s) && e.limits.Positive() && (exists a :: Enabled(e, s, a) && t == Apply(e, s, a))
    ensures t.shared.lawful ==> s.shared.lawful
    ensures s.shared.lawful && !t.shared.lawful ==> !InOrder(e, t.shared.tables)
  {
    var a :| Enabled(e, s, a) && t == Apply(e, s, a);
    if a.Go? {
      var thread := s.threads[a.k];
      assert ThreadOk(e, s.shared, thread);
      assert s.shared.lawful ==> ReadOk(e, thread);
      hide Move, Inv, ThreadOk, ReadOk, LifecycleOk;
      HistoryShrinks(e, s.shared, thread, a.choice);
      if s.shared.lawful {
        if thread.Starting? {
          StartStep(e, s.shared, thread, a.choice);
        } else if thread.Cancelling? {
          CancelStep(e, s.shared, thread, a.choice);
        } else {
          MoveLeavesHistory(e, s.shared, thread, a.choice);
        }
      }
    }
  }

  // What a Start stores, and when that obeys the law.
  lemma StartStep(e: Settings, w: Shared, t: Thread, c: Choice)
    requires e.limits.Positive() && ThreadOk(e, w, t) && ReadOk(e, t) && t.Starting?
    ensures var (v, u) := Move(e, w, t, c);
      if u.Noting? then
        && t.op.id in v.tables.operations
        && v.tables.operations[t.op.id] == ToRecord(Started(t.op, t.lease)).(revision := t.revision + 1)
        && v.lawful == (w.lawful && t.seen == t.revision)
        && (LifecycleOk(v.tables.operations[t.op.id], e.limits.maxAttempts) <==> t.seen == t.revision)
      else v == w
  {
    hide SubmitMove, FinishMove, CancelMove;
  }

  // What a Cancel stores, and when that obeys the law.
  lemma CancelStep(e: Settings, w: Shared, t: Thread, c: Choice)
    requires e.limits.Positive() && ThreadOk(e, w, t) && ReadOk(e, t) && t.Cancelling?
    ensures var (v, u) := Move(e, w, t, c);
      var may := CancelMayReplace(t.op, t.seen, t.revision, e.limits.maxAttempts);
      if u.Concluding? then
        && t.op.id in v.tables.operations
        && v.tables.operations[t.op.id]
             == ToRecord(t.op.(state := OpState.Cancelled)).(revision := t.revision + 1)
        && v.lawful == (w.lawful && may)
        && (LifecycleOk(v.tables.operations[t.op.id], e.limits.maxAttempts) <==> may)
      else v == w
  {
    hide SubmitMove, FinishMove, StartMove;
  }

  // A Start that goes through keeps the law exactly when nothing was stored
  // between its two reads.
  lemma StartKeepsLifecycleIff(e: Settings, run: seq<State>, i: nat, k: nat, c: Choice)
    requires IsRun(e, run) && e.limits.Positive() && i < |run| && run[i].shared.lawful
    requires k < |run[i].threads| && run[i].threads[k].Starting?
    requires Enabled(e, run[i], Go(k, c)) && Apply(e, run[i], Go(k, c)).threads[k].Noting?
    ensures var t := run[i].threads[k];
      var stored := Apply(e, run[i], Go(k, c)).shared.tables.operations;
      t.op.id in stored &&
      (LifecycleOk(stored[t.op.id], e.limits.maxAttempts) <==> t.seen == t.revision)
  {
    hide Move, Allowed, Width, LifecycleOk, CatalogOk;
    RunInv(e, run, i);
    var t := run[i].threads[k];
    assert ReadOk(e, t) && ThreadOk(e, run[i].shared, t);
    StartStep(e, run[i].shared, t, c);
  }

  // A Cancel that goes through keeps the law exactly when nothing was stored
  // between its two reads, or one update of an operation it read running and
  // whose attempts are not used up.
  lemma CancelKeepsLifecycleIff(e: Settings, run: seq<State>, i: nat, k: nat, c: Choice)
    requires IsRun(e, run) && e.limits.Positive() && i < |run| && run[i].shared.lawful
    requires k < |run[i].threads| && run[i].threads[k].Cancelling?
    requires Enabled(e, run[i], Go(k, c)) && Apply(e, run[i], Go(k, c)).threads[k].Concluding?
    ensures var t, limit := run[i].threads[k], e.limits.maxAttempts;
      var stored := Apply(e, run[i], Go(k, c)).shared.tables.operations;
      t.op.id in stored &&
      (LifecycleOk(stored[t.op.id], limit) <==>
        t.seen == t.revision || (t.op.state.Running? && t.revision == t.seen + 1 && t.op.attempt < limit))
  {
    hide Move, Allowed, Width, LifecycleOk, CatalogOk;
    RunInv(e, run, i);
    var t := run[i].threads[k];
    assert ReadOk(e, t) && ThreadOk(e, run[i].shared, t);
    CancelStep(e, run[i].shared, t, c);
  }

  // ---------- While no Start or Cancel has replaced an ended record ----------

  // The record a step's update replaces is the one the thread's second read
  // found, and the swap keeps every ended record exactly when that one had not
  // ended. A stale first read alone does no harm here.
  lemma SwapKeepsEndsIff(e: Settings, run: seq<State>, i: nat, j: nat, k: nat, c: Choice)
    requires IsRun(e, run) && e.limits.Positive() && i <= j < |run|
    requires k < |run[j].threads| && (run[j].threads[k].Starting? || run[j].threads[k].Cancelling?)
    requires Enabled(e, run[j], Go(k, c)) && WentThrough(run[j].threads[k], Apply(e, run[j], Go(k, c)).threads[k])
    requires var t, found := run[j].threads[k], run[i].shared.tables.operations;
      t.op.id in found && found[t.op.id].revision == t.revision
    ensures var t, before := run[j].threads[k], run[j].shared.tables;
      var after := Apply(e, run[j], Go(k, c)).shared.tables;
      && t.op.id in before.operations && before.operations[t.op.id] == run[i].shared.tables.operations[t.op.id]
      && (EndsStay(before, after) <==> !Terminal(run[i].shared.tables.operations[t.op.id].state))
  {
    NothingIsRewritten(e, run, i, j);
    RunInv(e, run, j);
    assert ThreadOk(e, run[j].shared, run[j].threads[k]);
    SwapStep(e, run[j].shared, run[j].threads[k], c);
  }

  // The swap of a Start or a Cancel went through.
  predicate WentThrough(t: Thread, u: Thread) {
    (t.Starting? && u.Noting?) || (t.Cancelling? && u.Concluding?)
  }

  lemma SwapStep(e: Settings, w: Shared, t: Thread, c: Choice)
    requires ThreadOk(e, w, t) && WentThrough(t, Move(e, w, t, c).1)
    ensures t.op.id in w.tables.operations && w.tables.operations[t.op.id].revision == t.revision
    ensures var v := Move(e, w, t, c).0;
      && (EndsStay(w.tables, v.tables) <==> !Ended(w.tables, t.op.id))
      && v.endsKept == (w.endsKept && !Ended(w.tables, t.op.id))
  {
    hide SubmitMove, FinishMove, EndsStay;
    var next := if t.Starting? then Started(t.op, t.lease) else t.op.(state := OpState.Cancelled);
    UpdateKeepsEndsIff(w.tables, ToRecord(next), t.revision);
  }

  // Over whole runs the flag says just this: no step so far changed an ended record.
  lemma {:induction false} EndsKeptIff(e: Settings, run: seq<State>, i: nat)
    requires IsRun(e, run) && e.limits.Positive() && i < |run|
    ensures run[i].shared.endsKept <==>
      forall k :: 0 <= k < i ==> EndsStay(run[k].shared.tables, run[k + 1].shared.tables)
  {
    hide Inv, EndsStay, Move, Apply, Enabled;
    if i == 0 {
    } else {
      EndsKeptIff(e, run, i - 1);
      RunInv(e, run, i - 1);
      assert StepAt(e, run, i - 1);
      EndsKeptStep(e, run[i - 1], run[i]);
    }
  }

  lemma EndsKeptStep(e: Settings, s: State, t: State)
    requires Inv(e, s) && (exists a :: Enabled(e, s, a) && t == Apply(e, s, a))
    ensures t.shared.endsKept <==> s.shared.endsKept && EndsStay(s.shared.tables, t.shared.tables)
  {
    var a :| Enabled(e, s, a) && t == Apply(e, s, a);
    if a.Go? {
      var thread := s.threads[a.k];
      assert ThreadOk(e, s.shared, thread);
      hide Move, ThreadOk, EndsStay;
      if (thread.Starting? || thread.Cancelling?) && WentThrough(thread, t.threads[a.k]) {
        SwapStep(e, s.shared, thread, a.choice);
      } else {
        NoSwapKeepsEnds(e, s.shared, thread, a.choice);
      }
    }
  }

  lemma NoSwapKeepsEnds(e: Settings, w: Shared, t: Thread, c: Choice)
    requires ThreadOk(e, w, t) && !WentThrough(t, Move(e, w, t, c).1)
    ensures var v := Move(e, w, t, c).0; v.endsKept == w.endsKept && EndsStay(w.tables, v.tables)
  {
    hide ThreadOk, EndsStay, Move;
    EndsStaySame(w.tables);
    if t.Starting? || t.Cancelling? {
      FailedSwap(e, w, t, c);
    } else {
      MoveLeavesHistory(e, w, t, c);
      PlainMoveKeepsEnds(e, w, t, c);
    }
  }

  lemma FailedSwap(e: Settings, w: Shared, t: Thread, c: Choice)
    requires (t.Starting? || t.Cancelling?) && !WentThrough(t, Move(e, w, t, c).1)
    ensures Move(e, w, t, c).0 == w
  {
    hide SubmitMove, FinishMove, AfterUpdate, Update;
  }

  lemma {:induction false} EndsKeptBefore(e: Settings, run: seq<State>, i: nat, j: nat)
    requires IsRun(e, run) && e.limits.Positive() && i <= j < |run| && run[j].shared.endsKept
    ensures run[i].shared.endsKept
  {
    EndsKeptIff(e, run, i);
    EndsKeptIff(e, run, j);
  }

  // In a history in which every Start and Cancel replaced what it had read, the
  // law holds and no ended record is ever replaced.
  lemma TightIsEnough(e: Settings, run: seq<State>, i: nat)
    requires IsRun(e, run) && e.limits.Positive() && i < |run| && run[i].shared.tight
    ensures run[i].shared.endsKept && run[i].shared.lawful
  {
    RunInv(e, run, i);
  }

  // An operation that has ended never changes again.
  lemma {:induction false} TerminalIsForGood(e: Settings, run: seq<State>, i: nat, j: nat, id: string)
    requires IsRun(e, run) && e.limits.Positive() && i <= j < |run| && run[j].shared.endsKept
    requires Ended(run[i].shared.tables, id)
    ensures id in run[j].shared.tables.operations
    ensures run[j].shared.tables.operations[id] == run[i].shared.tables.operations[id]
  {
    if i == j {
    } else {
      EndsKeptIff(e, run, j);
      EndsKeptBefore(e, run, j - 1, j);
      TerminalIsForGood(e, run, i, j - 1, id);
      assert EndsStay(run[j - 1].shared.tables, run[j].shared.tables);
    }
  }

  // Every artifact is the result of a completed operation, and its size and
  // digest are those of the merged file of that operation's request.
  lemma ArtifactsTellTheTruth(e: Settings, run: seq<State>, i: nat, f: string)
    requires IsRun(e, run) && e.limits.Positive() && i < |run| && run[i].shared.endsKept
    requires f in run[i].shared.tables.artifacts
    ensures var w, a := run[i].shared, run[i].shared.tables.artifacts[f];
      && a.receipt.fileID == f && CompletedWith(w.tables, a.operationID, a.receipt)
      && a.operationID in w.requests
      && MergeYields(e.env, w.requests[a.operationID], a.receipt)
  {
    RunInv(e, run, i);
    assert ArtifactOk(e, run[i].shared, f, run[i].shared.tables.artifacts[f]);
  }

  // What the operation machine lets a merge return is what the merge machine
  // publishes, whatever its interleaving and however it was interrupted.
  lemma SuccessfulMergesYield(e: Settings, request: Request, h: seq<MergeHistory.World>, i: nat)
    requires Acceptable(request.manifest) && Loading.DigestsAreHex(e.env)
    requires var cfg := MergeMachine.Config(e.env, request.segments, Compiled(request.manifest));
      MergeInvariant.ConfigOk(cfg) && MergeHistory.IsHistory(cfg, h)
    requires i < |h| && h[i].Within? && h[i].run.phase == MergeMachine.Finished(MergeMachine.End.Success)
    ensures var f := TrimSpace(request.manifest.fileID);
      && f in h[i].run.disk.writer.outputs
      && MergeYields(e.env, request, h[i].run.disk.writer.outputs[f])
  {
    MergeHistory.MergePublishesExpected(
      MergeMachine.Config(e.env, request.segments, Compiled(request.manifest)), h, i);
  }

  // What validation buys: exactly for a valid request under a key no load can
  // miss its segment or find it of another stored size, whatever the decoder.
  lemma ValidRequestIff(env: Loading.Env, r: Request)
    ensures ValidRequest(r) <==>
      && r.key != "" && Acceptable(r.manifest)
      && forall s, e :: s in r.manifest.segments && e in {Loading.SegmentNotFound, Loading.StoredSizeMismatch} ==>
           Loading.Content(env, r.segments, s) != Failure(e)
  {
    hide Acceptable;
    forall s: Segment ensures
      (s.id in r.segments && |r.segments[s.id]| == s.storedSize as int) <==>
        && Loading.Content(env, r.segments, s) != Failure(Loading.SegmentNotFound)
        && Loading.Content(env, r.segments, s) != Failure(Loading.StoredSizeMismatch)
    {
      Loading.FailureIff(env, r.segments, s, Loading.SegmentNotFound);
      Loading.FailureIff(env, r.segments, s, Loading.StoredSizeMismatch);
    }
    hide Loading.Content;
  }

  // However long journal appends are delayed, an operation has at most one
  // completed, failed or cancelled event, and none before it has ended.
  lemma AtMostOneOutcome(e: Settings, run: seq<State>, i: nat, id: string)
    requires IsRun(e, run) && e.limits.Positive() && i < |run| && run[i].shared.endsKept
    ensures Outcomes(run[i].shared.journal, id) <= One(Ended(run[i].shared.tables, id))
    ensures forall j, k :: 0 <= j < k < |run[i].shared.journal| ==>
      !(Reports(run[i].shared.journal[j], id) && Reports(run[i].shared.journal[k], id))
  {
    RunInv(e, run, i);
    assert OutcomesOk(run[i], id);
    var threads, journal := run[i].threads, run[i].shared.journal;
    SumNonNegative(seq(|threads|, k requires 0 <= k < |threads| => One(Owes(threads[k], id))));
    var counts := seq(|journal|, k requires 0 <= k < |journal| => One(Reports(journal[k], id)));
    SumNonNegative(counts);
    forall j, k | 0 <= j < k < |journal| ensures !(Reports(journal[j], id) && Reports(journal[k], id)) {
      assert counts[j] + counts[k] <= Outcomes(journal, id);
    }
  }

  // Submits that never overlap keep the number of active operations within the
  // limit; each further overlapping one can exceed it by one.
  lemma ActiveWithinLimit(e: Settings, run: seq<State>, i: nat)
    requires IsRun(e, run) && e.limits.Positive() && i < |run| && run[i].shared.endsKept
    ensures |Active(run[i].shared.tables)| <= e.limits.maxActiveOperations - 1 + run[i].widest
    ensures run[i].widest <= 1 ==> |Active(run[i].shared.tables)| <= e.limits.maxActiveOperations
  {
    RunInv(e, run, i);
    var threads := run[i].threads;
    SumNonNegative(seq(|threads|, k requires 0 <= k < |threads| => One(threads[k].Creating?)));
  }
}
