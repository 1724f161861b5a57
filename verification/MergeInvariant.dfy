// What every step of a merge run keeps: no ordinal is lost or duplicated, the
// byte budget balances, no waiting worker is forgotten, and the staged draft
// holds the right bytes below the resume point.
module MergeInvariant {
  import opened Prelude
  import opened Manifests
  import opened Budgets
  import opened Writers
  import opened Loading
  import opened Sums
  import opened MergeMachine

  // ---------- The configurations a merge is run with ----------

  ghost predicate ConfigOk(cfg: Config) {
    && cfg.manifest.fileID != "" && cfg.manifest.version != "" && cfg.manifest.totalSize >= 0
    && (forall i :: 0 <= i < cfg.Count() ==> SegmentOk(cfg.manifest.segments[i], cfg.manifest.totalSize))
    && (forall i, j :: 0 <= i < j < cfg.Count() ==>
          cfg.manifest.segments[i].End() <= cfg.manifest.segments[j].Begin())
    && DigestsAreHex(cfg.env)
  }

  // Every manifest CompileManifest accepts gives such a configuration.
  lemma AcceptedManifestIsOk(env: Env, source: Source, m: Manifest)
    requires Acceptable(m) && DigestsAreHex(env)
    ensures ConfigOk(Config(env, source, Compiled(m)))
  {
    CompileIsIdempotent(m);
    TrimSpaceIdempotent(m.fileID);
    forall i, j | 0 <= i < j < |Compiled(m).segments|
      ensures Compiled(m).segments[i].End() <= Compiled(m).segments[j].Begin()
    {
      CompiledOrdered(m, i, j);
    }
  }

  // ---------- Where an ordinal is ----------

  predicate Holds(w: Worker, i: nat) {
    match w
    case Checking(j) => j == i
    case Waiting(j, _) => j == i
    case Holding(j) => j == i
    case Marked(j, _) => j == i
    case Failing(j) => j == i
    case _ => false
  }

  ghost function HolderMarks(workers: seq<Worker>, i: nat): seq<int> {
    seq(|workers|, k requires 0 <= k < |workers| => One(Holds(workers[k], i)))
  }

  ghost function WorkersAt(workers: seq<Worker>, i: nat): int {
    Sum(HolderMarks(workers, i))
  }

  ghost function MessageMarks(queue: seq<Message>, i: nat): seq<int> {
    seq(|queue|, k requires 0 <= k < |queue| => One(queue[k].ordinal == i))
  }

  ghost function QueueAt(queue: seq<Message>, i: nat): int {
    Sum(MessageMarks(queue, i))
  }

  // In how many of the six places an ordinal is: unsent jobs, a worker, the
  // result queue, pending, the written prefix, or discarded on an error path.
  ghost function Places(s: State, i: nat): int {
    One(i >= s.sent) + WorkersAt(s.workers, i) + QueueAt(s.queue, i)
    + One(i in s.pending && i >= s.next) + One(i < s.next) + One(i in s.dropped)
  }

  lemma WorkersAtSet(workers: seq<Worker>, k: nat, w: Worker, i: nat)
    requires k < |workers|
    ensures WorkersAt(workers[k := w], i) ==
      WorkersAt(workers, i) - One(Holds(workers[k], i)) + One(Holds(w, i))
  {
    assert HolderMarks(workers[k := w], i) == HolderMarks(workers, i)[k := One(Holds(w, i))];
    SumUpdate(HolderMarks(workers, i), k, One(Holds(w, i)));
  }

  lemma WorkersAtBounds(workers: seq<Worker>, i: nat)
    ensures WorkersAt(workers, i) >= 0
    ensures forall k :: 0 <= k < |workers| && Holds(workers[k], i) ==> WorkersAt(workers, i) >= 1
    ensures forall k, l :: 0 <= k < l < |workers| && Holds(workers[k], i) && Holds(workers[l], i) ==>
      WorkersAt(workers, i) >= 2
    ensures WorkersAt(workers, i) > 0 ==> exists k :: 0 <= k < |workers| && Holds(workers[k], i)
  {
    var marks := HolderMarks(workers, i);
    SumNonNegative(marks);
    assert forall k :: 0 <= k < |workers| ==> marks[k] == One(Holds(workers[k], i));
    if Sum(marks) > 0 {
      var k := SumWitness(marks);
      assert Holds(workers[k], i);
    }
  }

  lemma QueueAtPush(queue: seq<Message>, m: Message, i: nat)
    ensures QueueAt(queue + [m], i) == QueueAt(queue, i) + One(m.ordinal == i)
  {
    assert MessageMarks(queue + [m], i) == MessageMarks(queue, i) + [One(m.ordinal == i)];
    SumAppend(MessageMarks(queue, i), One(m.ordinal == i));
  }

  lemma QueueAtPop(queue: seq<Message>, i: nat)
    requires queue != []
    ensures QueueAt(queue[1..], i) == QueueAt(queue, i) - One(queue[0].ordinal == i)
  {
    assert MessageMarks(queue, i)[1..] == MessageMarks(queue[1..], i);
  }

  lemma QueueAtBounds(queue: seq<Message>, i: nat)
    ensures QueueAt(queue, i) >= 0
    ensures forall k :: 0 <= k < |queue| && queue[k].ordinal == i ==> QueueAt(queue, i) >= 1
    ensures forall k, l :: 0 <= k < l < |queue| && queue[k].ordinal == i && queue[l].ordinal == i ==>
      QueueAt(queue, i) >= 2
    ensures QueueAt(queue, i) > 0 ==> exists k :: 0 <= k < |queue| && queue[k].ordinal == i
  {
    var marks := MessageMarks(queue, i);
    SumNonNegative(marks);
    assert forall k :: 0 <= k < |queue| ==> marks[k] == One(queue[k].ordinal == i);
    if Sum(marks) > 0 {
      var k := SumWitness(marks);
      assert queue[k].ordinal == i;
    }
  }

  // ---------- Sums over the leases ----------

  ghost function ReservedMarks(cfg: Config, leases: seq<Hold>): seq<int>
    requires |leases| == cfg.Count()
  {
    seq(|leases|, i requires 0 <= i < |leases| => if leases[i].Held? then cfg.Weight(i) else 0)
  }

  ghost function ResidentMarks(leases: seq<Hold>): seq<int> {
    seq(|leases|, i requires 0 <= i < |leases| => if leases[i].Held? then leases[i].resident else 0)
  }

  // ---------- The invariant ----------

  predicate Normal(p: Phase) {
    p.Receiving? || p.Flushing? || p.Appended? || p.Freed? || p.Committing? || p.Indexing? || p.Unmarking?
  }

  // The collector has stopped receiving.
  predicate Closed(p: Phase) {
    p.Aborting? || p.Clearing? || p.Committing? || p.Indexing? || p.Unmarking? || p.Finished?
  }

  predicate CommitPhase(p: Phase) {
    p.Committing? || p.Indexing? || p.Unmarking? || (p.Finished? && p.end != End.Aborted)
  }

  ghost predicate ShapeInv(cfg: Config, s: State) {
    && s.start <= s.next <= cfg.Count() && s.start <= s.sent <= cfg.Count()
    && |s.leases| == cfg.Count() && s.budget.limit >= 1
    && |s.workers| <= cfg.Count() - s.start && (s.start < cfg.Count() ==> |s.workers| >= 1)
    && (forall k, i: nat :: 0 <= k < |s.workers| && Holds(s.workers[k], i) ==> s.start <= i < s.sent)
    && (forall k :: 0 <= k < |s.workers| && s.workers[k].Exited? ==> s.sent == cfg.Count())
    && (forall k :: 0 <= k < |s.queue| ==> s.start <= s.queue[k].ordinal < s.sent)
    && (forall i :: i in s.pending ==> s.start <= i < s.sent)
  }

  ghost predicate PlacesInv(cfg: Config, s: State) {
    forall i: nat :: s.start <= i < cfg.Count() ==> Places(s, i) == 1
  }

  ghost predicate WorkerLease(cfg: Config, s: State, k: nat)
    requires k < |s.workers| && |s.leases| == cfg.Count()
  {
    match s.workers[k]
    case Checking(j) => j < cfg.Count() && s.leases[j] == Fresh
    case Waiting(j, _) => j < cfg.Count() && s.leases[j] == Fresh
    case Holding(j) => j < cfg.Count() && s.leases[j] == Held(0)
    case Marked(j, data) => j < cfg.Count() && s.leases[j] == Held(|data|) && cfg.Data(j) == Result.Success(data)
    case Failing(j) => j < cfg.Count() && !s.leases[j].Held?
    case _ => true
  }

  ghost predicate MessageLease(cfg: Config, s: State, m: Message)
    requires |s.leases| == cfg.Count()
  {
    match m
    case Loaded(j, data) => j < cfg.Count() && s.leases[j] == Held(|data|) && cfg.Data(j) == Result.Success(data)
    case Unloadable(j) => j < cfg.Count() && !s.leases[j].Held?
  }

  ghost predicate PendingLease(cfg: Config, s: State, i: nat)
    requires i in s.pending && |s.leases| == cfg.Count()
  {
    && i < cfg.Count() && cfg.Data(i) == Result.Success(s.pending[i])
    && (Normal(s.phase) && i >= s.next ==> s.leases[i] == Held(|s.pending[i]|))
    && (s.leases[i].Held? ==> s.leases[i].resident == |s.pending[i]|)
  }

  ghost predicate LeaseInv(cfg: Config, s: State)
    requires |s.leases| == cfg.Count()
  {
    && (forall i :: s.sent <= i < cfg.Count() ==> s.leases[i] == Fresh)
    && (forall k :: 0 <= k < |s.workers| ==> WorkerLease(cfg, s, k))
    && (forall k :: 0 <= k < |s.queue| ==> MessageLease(cfg, s, s.queue[k]))
    && (forall i :: i in s.pending ==> PendingLease(cfg, s, i))
    && (forall i :: 0 <= i < cfg.Count() && s.leases[i].Held? ==> HeldSomewhere(cfg, s, i))
  }

  // No lease is held by nobody.
  ghost predicate HeldSomewhere(cfg: Config, s: State, i: nat)
    requires i < |s.leases| == cfg.Count() && s.leases[i].Held?
  {
    && 0 <= s.leases[i].resident <= cfg.Weight(i)
    && (i in s.pending || WorkersAt(s.workers, i) > 0 || QueueAt(s.queue, i) > 0)
  }

  ghost predicate BudgetInv(cfg: Config, s: State)
    requires |s.leases| == cfg.Count()
  {
    && s.budget.reserved == Sum(ReservedMarks(cfg, s.leases))
    && s.budget.resident == Sum(ResidentMarks(s.leases))
    && s.budget.reserved <= s.budget.limit && s.budget.resident <= s.budget.peak <= s.budget.limit
  }

  // A worker asleep on the current generation still does not fit.
  ghost predicate WakeInv(cfg: Config, s: State) {
    forall k :: 0 <= k < |s.workers| && s.workers[k].Waiting? ==>
      && s.workers[k].job < cfg.Count()
      && cfg.Weight(s.workers[k].job) <= s.budget.limit
      && s.workers[k].seen <= s.budget.generation
      && (s.workers[k].seen == s.budget.generation ==> !Fits(s.budget, cfg.Weight(s.workers[k].job)))
  }

  ghost predicate PhaseInv(cfg: Config, s: State) {
    && (s.callerDone ==> s.workersDone)
    && (Normal(s.phase) ==> s.dropped == {})
    && (s.phase.Receiving? ==> s.next !in s.pending)
    && (s.phase.Appended? || s.phase.Freed? ==>
          s.start < s.next && s.next - 1 in s.pending && s.pending[s.next - 1] == s.phase.data)
    && (s.phase.Appended? ==> s.next - 1 < |s.leases| && s.leases[s.next - 1].Held?)
    && (s.phase.Freed? ==> s.next - 1 < |s.leases| && s.leases[s.next - 1] == Released)
    && (forall i :: i in s.pending && i < s.next ==>
          i == s.next - 1 && (s.phase.Appended? || s.phase.Freed? || s.phase.Releasing?))
    && (s.phase.Releasing? || s.phase.Draining? ==> s.workersDone || (AllExited(s) && s.queue == []))
    && (s.phase.Draining? || Closed(s.phase) ==> s.pending == map[])
    && (Closed(s.phase) ==> AllExited(s) && s.queue == [])
    && (CommitPhase(s.phase) ==> s.next == cfg.Count() && s.dropped == {})
  }

  // ---------- Consequences of being in exactly one place ----------

  lemma WorkerAlone(cfg: Config, s: State, k: nat, j: nat)
    requires ShapeInv(cfg, s) && PlacesInv(cfg, s)
    requires k < |s.workers| && Holds(s.workers[k], j)
    ensures s.next <= j < s.sent && j !in s.pending && j !in s.dropped
    ensures forall l :: 0 <= l < |s.workers| && l != k ==> !Holds(s.workers[l], j)
    ensures forall l :: 0 <= l < |s.queue| ==> s.queue[l].ordinal != j
  {
    WorkersAtBounds(s.workers, j);
    QueueAtBounds(s.queue, j);
    assert Places(s, j) == 1;
  }

  lemma HeadAlone(cfg: Config, s: State)
    requires ShapeInv(cfg, s) && PlacesInv(cfg, s) && s.queue != []
    ensures var j := s.queue[0].ordinal;
      && s.next <= j < s.sent && j !in s.pending && j !in s.dropped
      && (forall l :: 0 <= l < |s.workers| ==> !Holds(s.workers[l], j))
      && (forall l :: 1 <= l < |s.queue| ==> s.queue[l].ordinal != j)
  {
    var j := s.queue[0].ordinal;
    WorkersAtBounds(s.workers, j);
    QueueAtBounds(s.queue, j);
    assert Places(s, j) == 1;
  }

  lemma PendingAlone(cfg: Config, s: State, j: nat)
    requires ShapeInv(cfg, s) && PlacesInv(cfg, s) && j in s.pending
    ensures j < s.sent && (j >= s.next ==> j !in s.dropped)
    ensures forall l :: 0 <= l < |s.workers| ==> !Holds(s.workers[l], j)
    ensures forall l :: 0 <= l < |s.queue| ==> s.queue[l].ordinal != j
  {
    WorkersAtBounds(s.workers, j);
    QueueAtBounds(s.queue, j);
    assert Places(s, j) == 1;
  }

  ghost predicate RunInv(cfg: Config, s: State) {
    && ShapeInv(cfg, s) && PlacesInv(cfg, s) && LeaseInv(cfg, s)
    && BudgetInv(cfg, s) && WakeInv(cfg, s) && PhaseInv(cfg, s)
  }

  // ---------- Bookkeeping of one lease ----------

  lemma LeaseSet(cfg: Config, leases: seq<Hold>, j: nat, h: Hold)
    requires j < |leases| == cfg.Count()
    ensures Sum(ReservedMarks(cfg, leases[j := h])) == Sum(ReservedMarks(cfg, leases))
      - (if leases[j].Held? then cfg.Weight(j) else 0) + (if h.Held? then cfg.Weight(j) else 0)
    ensures Sum(ResidentMarks(leases[j := h])) == Sum(ResidentMarks(leases))
      - (if leases[j].Held? then leases[j].resident else 0) + (if h.Held? then h.resident else 0)
  {
    var weight := if h.Held? then cfg.Weight(j) else 0;
    var resident := if h.Held? then h.resident else 0;
    assert ReservedMarks(cfg, leases[j := h]) == ReservedMarks(cfg, leases)[j := weight];
    assert ResidentMarks(leases[j := h]) == ResidentMarks(leases)[j := resident];
    SumUpdate(ReservedMarks(cfg, leases), j, weight);
    SumUpdate(ResidentMarks(leases), j, resident);
  }

  ghost predicate HoldsBounded(cfg: Config, leases: seq<Hold>)
    requires |leases| == cfg.Count()
  {
    forall i :: 0 <= i < |leases| && leases[i].Held? ==> 0 <= leases[i].resident <= cfg.Weight(i)
  }

  lemma ResidentBelowReserved(cfg: Config, leases: seq<Hold>)
    requires |leases| == cfg.Count() && HoldsBounded(cfg, leases)
    ensures 0 <= Sum(ResidentMarks(leases)) <= Sum(ReservedMarks(cfg, leases))
  {
    SumNonNegative(ResidentMarks(leases));
    SumOrdered(ResidentMarks(leases), ReservedMarks(cfg, leases));
  }

  lemma LeasesBounded(cfg: Config, s: State)
    requires |s.leases| == cfg.Count() && LeaseInv(cfg, s)
    ensures HoldsBounded(cfg, s.leases)
  {
    forall i | 0 <= i < |s.leases| && s.leases[i].Held?
      ensures 0 <= s.leases[i].resident <= cfg.Weight(i)
    {
      assert HeldSomewhere(cfg, s, i);
    }
  }

  // ---------- Steps that only move the collector's control point ----------

  ghost predicate OnlyControl(s: State, t: State) {
    t == s.(phase := t.phase, disk := t.disk, callerDone := t.callerDone, workersDone := t.workersDone)
  }

  lemma ControlKept(cfg: Config, s: State, t: State)
    requires RunInv(cfg, s) && OnlyControl(s, t)
    requires Normal(t.phase) ==> Normal(s.phase)
    requires PhaseInv(cfg, t)
    ensures RunInv(cfg, t)
  {
    assert forall i: nat :: Places(s, i) == Places(t, i);
    assert forall k :: 0 <= k < |s.workers| ==> WorkerLease(cfg, s, k) ==> WorkerLease(cfg, t, k);
    assert forall k :: 0 <= k < |s.queue| ==> MessageLease(cfg, s, s.queue[k]) ==> MessageLease(cfg, t, s.queue[k]);
    assert forall i :: i in s.pending ==> PendingLease(cfg, s, i) ==> PendingLease(cfg, t, i);
    assert forall i :: 0 <= i < cfg.Count() && s.leases[i].Held? ==>
      HeldSomewhere(cfg, s, i) ==> HeldSomewhere(cfg, t, i);
  }

  predicate WorkerStep(a: Action) {
    || a.Dispatch? || a.Exit? || a.Check? || a.Wake? || a.GiveUp?
    || a.LoadOk? || a.LoadFail? || a.Send?
  }

  predicate ControlStep(a: Action) {
    || a.EndFlush? || a.Close? || a.CloseIncomplete? || a.EndRelease? || a.EndDrain? || a.AbortSession?
    || a.ClearCheckpoint? || a.Commit? || a.PutIndex? || a.ClearDone? || a.CancelCaller?
  }

  // When the channel is closed, every ordinal has been received.
  lemma ClosedMeansReceived(cfg: Config, s: State)
    requires RunInv(cfg, s) && s.phase.Receiving? && s.queue == [] && AllExited(s)
    ensures s.next == cfg.Count() && s.pending == map[]
  {
    forall i: nat | s.next <= i < cfg.Count() ensures i in s.pending {
      assert Places(s, i) == 1;
      WorkersAtBounds(s.workers, i);
      QueueAtBounds(s.queue, i);
    }
    assert s.next == cfg.Count();
    assert forall i :: i in s.pending ==> i < s.next;
    assert s.pending.Keys == {};
  }

  lemma ControlStepEffect(cfg: Config, s: State, a: Action)
    requires PhaseInv(cfg, s) && Enabled(cfg, s, a) && ControlStep(a)
    requires a.Close? || a.CloseIncomplete? ==> s.next == cfg.Count() && s.pending == map[]
    ensures OnlyControl(s, Apply(cfg, s, a))
    ensures Normal(Apply(cfg, s, a).phase) ==> Normal(s.phase)
    ensures PhaseInv(cfg, Apply(cfg, s, a))
  {
    hide PhaseInv, Apply, Enabled, OnlyControl, Normal;
    ControlPhaseKept(cfg, s, a);
    ControlIsControl(cfg, s, a);
  }

  lemma ControlIsControl(cfg: Config, s: State, a: Action)
    requires Enabled(cfg, s, a) && ControlStep(a)
    ensures OnlyControl(s, Apply(cfg, s, a))
    ensures Normal(Apply(cfg, s, a).phase) ==> Normal(s.phase)
  {
    hide ApplyCheck, ApplyLoadOk, ApplyReceive, ApplyAppend, ApplySave, DropPending, ApplyDrain, Release;
    hide SetWorker, Job, AllExited, ReceiptOk, Writers.Committed, Writers.Aborted;
  }

  lemma ControlPhaseKept(cfg: Config, s: State, a: Action)
    requires PhaseInv(cfg, s) && Enabled(cfg, s, a) && ControlStep(a)
    requires a.Close? || a.CloseIncomplete? ==> s.next == cfg.Count() && s.pending == map[]
    ensures PhaseInv(cfg, Apply(cfg, s, a))
  {
    hide ApplyCheck, ApplyLoadOk, ApplyReceive, ApplyAppend, ApplySave, DropPending, ApplyDrain, Release;
    hide SetWorker, Job, ReceiptOk, Writers.Committed, Writers.Aborted;
  }

  lemma ControlStepKept(cfg: Config, s: State, a: Action)
    requires RunInv(cfg, s) && Enabled(cfg, s, a) && ControlStep(a)
    ensures RunInv(cfg, Apply(cfg, s, a))
  {
    if a.Close? || a.CloseIncomplete? {
      ClosedMeansReceived(cfg, s);
    }
    ControlStepEffect(cfg, s, a);
    ControlKept(cfg, s, Apply(cfg, s, a));
  }

  // ---------- Steps of one worker on its job ----------

  // Worker k, on job j before and after, changed its own state and at most
  // the lease of j and the budget.
  ghost predicate WorkerMoved(s: State, t: State, k: nat, j: nat) {
    && k < |s.workers| && j < |s.leases|
    && |t.workers| == |s.workers| && |t.leases| == |s.leases|
    && Holds(s.workers[k], j) && Holds(t.workers[k], j)
    && t == s.(workers := s.workers[k := t.workers[k]], leases := s.leases[j := t.leases[j]], budget := t.budget)
  }

  // The budget only filled up, or a new generation began.
  ghost predicate BudgetMoved(b: Budget, c: Budget) {
    && c.limit == b.limit
    && (c.generation > b.generation || (c.generation == b.generation && c.reserved >= b.reserved))
  }

  lemma WakeKept(cfg: Config, s: State, t: State, k: nat)
    requires WakeInv(cfg, s) && BudgetMoved(s.budget, t.budget)
    requires k < |s.workers| == |t.workers| && t.workers == s.workers[k := t.workers[k]]
    requires t.workers[k].Waiting? ==>
      && t.workers[k].job < cfg.Count() && cfg.Weight(t.workers[k].job) <= t.budget.limit
      && t.workers[k].seen == t.budget.generation && !Fits(t.budget, cfg.Weight(t.workers[k].job))
    ensures WakeInv(cfg, t)
  {
  }

  lemma WorkerLeasesKept(cfg: Config, s: State, t: State, k: nat, j: nat)
    requires ShapeInv(cfg, s) && PlacesInv(cfg, s) && LeaseInv(cfg, s) && WorkerMoved(s, t, k, j)
    requires WorkerLease(cfg, t, k)
    requires t.leases[j].Held? ==> 0 <= t.leases[j].resident <= cfg.Weight(j)
    ensures LeaseInv(cfg, t)
  {
    WorkerAlone(cfg, s, k, j);
    forall l | 0 <= l < |t.workers| ensures WorkerLease(cfg, t, l) {
      assert WorkerLease(cfg, s, l);
      assert l != k ==> !Holds(s.workers[l], j);
    }
    forall l | 0 <= l < |t.queue| ensures MessageLease(cfg, t, t.queue[l]) {
      assert MessageLease(cfg, s, s.queue[l]);
    }
    forall i | i in t.pending ensures PendingLease(cfg, t, i) {
      assert PendingLease(cfg, s, i);
    }
    forall i | 0 <= i < cfg.Count() && t.leases[i].Held? ensures HeldSomewhere(cfg, t, i) {
      WorkersAtSet(s.workers, k, t.workers[k], i);
      WorkersAtBounds(t.workers, i);
      assert i != j ==> HeldSomewhere(cfg, s, i);
    }
  }

  lemma WorkerKept(cfg: Config, s: State, t: State, k: nat, j: nat)
    requires RunInv(cfg, s) && WorkerMoved(s, t, k, j)
    requires WorkerLease(cfg, t, k) && BudgetInv(cfg, t) && WakeInv(cfg, t)
    requires t.leases[j].Held? ==> 0 <= t.leases[j].resident <= cfg.Weight(j)
    requires t.budget.limit == s.budget.limit
    ensures RunInv(cfg, t)
  {
    hide WorkerLease, BudgetInv, WakeInv, WorkersAt, QueueAt;
    WorkerAlone(cfg, s, k, j);
    WorkerLeasesKept(cfg, s, t, k, j);
    forall i: nat | s.start <= i < cfg.Count() ensures Places(t, i) == 1 {
      assert Places(s, i) == 1;
      WorkersAtSet(s.workers, k, t.workers[k], i);
    }
    forall l, i: nat | 0 <= l < |t.workers| && Holds(t.workers[l], i) ensures t.start <= i < t.sent {
      assert Holds(s.workers[l], i);
    }
    assert !AllExited(s) by { assert !s.workers[k].Exited?; }
    assert s.phase.Freed? ==> s.next - 1 != j;
  }

  lemma CheckKept(cfg: Config, s: State, k: nat)
    requires RunInv(cfg, s) && Enabled(cfg, s, Check(k))
    ensures RunInv(cfg, ApplyCheck(cfg, s, k))
  {
    hide PlacesInv, PhaseInv, HeldSomewhere;
    var t, j := ApplyCheck(cfg, s, k), s.workers[k].job;
    assert WorkerLease(cfg, s, k);
    if t.workers[k].Holding? {
      LeaseSet(cfg, s.leases, j, Held(0));
    }
    assert t.leases == s.leases[j := t.leases[j]];
    WakeKept(cfg, s, t, k);
    WorkerKept(cfg, s, t, k, j);
  }

  lemma WaitStepKept(cfg: Config, s: State, a: Action)
    requires RunInv(cfg, s) && Enabled(cfg, s, a) && (a.Wake? || a.GiveUp?)
    ensures RunInv(cfg, Apply(cfg, s, a))
  {
    var t, k := Apply(cfg, s, a), a.worker;
    var j := s.workers[k].job;
    assert WorkerLease(cfg, s, k);
    assert t.leases == s.leases[j := t.leases[j]];
    WakeKept(cfg, s, t, k);
    WorkerKept(cfg, s, t, k, j);
  }

  lemma LoadOkKept(cfg: Config, s: State, k: nat)
    requires RunInv(cfg, s) && Enabled(cfg, s, LoadOk(k))
    ensures RunInv(cfg, ApplyLoadOk(cfg, s, k))
  {
    var t, j := ApplyLoadOk(cfg, s, k), s.workers[k].job;
    assert WorkerLease(cfg, s, k);
    LeaseSet(cfg, s.leases, j, t.leases[j]);
    LeasesBounded(cfg, s);
    ResidentBelowReserved(cfg, t.leases);
    WakeKept(cfg, s, t, k);
    WorkerKept(cfg, s, t, k, j);
  }

  lemma LoadFailKept(cfg: Config, s: State, k: nat)
    requires RunInv(cfg, s) && Enabled(cfg, s, LoadFail(k))
    ensures RunInv(cfg, Apply(cfg, s, LoadFail(k)))
  {
    var t, j := Apply(cfg, s, LoadFail(k)), s.workers[k].job;
    assert WorkerLease(cfg, s, k);
    ReleaseBudget(cfg, s, j);
    WakeKept(cfg, s, t, k);
    WorkerKept(cfg, s, t, k, j);
  }

  // A release keeps the accounts whether or not the lease was still held.
  lemma ReleaseBudget(cfg: Config, s: State, j: nat)
    requires j < |s.leases| == cfg.Count() && LeaseInv(cfg, s) && BudgetInv(cfg, s)
    ensures var t := Release(cfg, s, j);
      && BudgetInv(cfg, t) && !t.leases[j].Held? && t.leases == s.leases[j := t.leases[j]]
      && (s.leases[j].Held? ==> BudgetMoved(s.budget, t.budget))
  {
    var t := Release(cfg, s, j);
    if s.leases[j].Held? {
      LeaseSet(cfg, s.leases, j, Released);
      LeasesBounded(cfg, s);
      ResidentBelowReserved(cfg, t.leases);
      assert HeldSomewhere(cfg, s, j);
    }
  }

  // ---------- Steps between the channels and a worker ----------

  // The leases stand, and nothing that could hold one went missing.
  lemma LeasesStand(cfg: Config, s: State, t: State, k: nat)
    requires |s.leases| == cfg.Count() && LeaseInv(cfg, s)
    requires t.leases == s.leases && t.pending == s.pending && t.next == s.next && t.phase == s.phase
    requires t.sent >= s.sent && k < |s.workers| == |t.workers| && t.workers == s.workers[k := t.workers[k]]
    requires WorkerLease(cfg, t, k)
    requires forall l :: 0 <= l < |t.queue| ==> MessageLease(cfg, t, t.queue[l])
    requires forall i: nat ::
      WorkersAt(s.workers, i) + QueueAt(s.queue, i) <= WorkersAt(t.workers, i) + QueueAt(t.queue, i)
    ensures LeaseInv(cfg, t)
  {
    forall l | 0 <= l < |t.workers| ensures WorkerLease(cfg, t, l) {
      assert WorkerLease(cfg, s, l);
    }
    forall i | i in t.pending ensures PendingLease(cfg, t, i) {
      assert PendingLease(cfg, s, i);
    }
    forall i | 0 <= i < cfg.Count() && t.leases[i].Held? ensures HeldSomewhere(cfg, t, i) {
      assert HeldSomewhere(cfg, s, i);
      WorkersAtBounds(s.workers, i);
      QueueAtBounds(s.queue, i);
    }
  }

  lemma HandoverLeasesKept(cfg: Config, s: State, a: Action)
    requires RunInv(cfg, s) && Enabled(cfg, s, a) && (a.Dispatch? || a.Exit? || a.Send?)
    ensures LeaseInv(cfg, Apply(cfg, s, a))
  {
    var t, k := Apply(cfg, s, a), a.worker;
    assert WorkerLease(cfg, s, k);
    forall i: nat
      ensures WorkersAt(s.workers, i) + QueueAt(s.queue, i) <= WorkersAt(t.workers, i) + QueueAt(t.queue, i)
    {
      WorkersAtSet(s.workers, k, t.workers[k], i);
      if a.Send? {
        QueueAtPush(s.queue, t.queue[|s.queue|], i);
      }
    }
    forall l | 0 <= l < |t.queue| ensures MessageLease(cfg, t, t.queue[l]) {
      assert l < |s.queue| ==> MessageLease(cfg, s, s.queue[l]);
    }
    LeasesStand(cfg, s, t, k);
  }

  lemma HandoverShapeKept(cfg: Config, s: State, a: Action)
    requires ShapeInv(cfg, s) && Enabled(cfg, s, a) && (a.Dispatch? || a.Exit? || a.Send?)
    ensures ShapeInv(cfg, Apply(cfg, s, a))
  {
    var t, k := Apply(cfg, s, a), a.worker;
    forall l, i: nat | 0 <= l < |t.workers| && Holds(t.workers[l], i) ensures t.start <= i < t.sent {
      assert l != k ==> Holds(s.workers[l], i);
    }
    if a.Send? {
      assert Holds(s.workers[k], t.queue[|s.queue|].ordinal);
    }
  }

  lemma HandoverPlacesKept(cfg: Config, s: State, a: Action)
    requires PlacesInv(cfg, s) && Enabled(cfg, s, a) && (a.Dispatch? || a.Exit? || a.Send?)
    ensures PlacesInv(cfg, Apply(cfg, s, a))
  {
    var t, k := Apply(cfg, s, a), a.worker;
    forall i: nat | s.start <= i < cfg.Count() ensures Places(t, i) == 1 {
      assert Places(s, i) == 1;
      WorkersAtSet(s.workers, k, t.workers[k], i);
      if a.Send? {
        QueueAtPush(s.queue, t.queue[|s.queue|], i);
      }
    }
  }

  lemma HandoverKept(cfg: Config, s: State, a: Action)
    requires RunInv(cfg, s) && Enabled(cfg, s, a) && (a.Dispatch? || a.Exit? || a.Send?)
    ensures RunInv(cfg, Apply(cfg, s, a))
  {
    HandoverLeasesKept(cfg, s, a);
    HandoverShapeKept(cfg, s, a);
    HandoverPlacesKept(cfg, s, a);
    HandoverRestKept(cfg, s, a);
  }

  lemma HandoverRestKept(cfg: Config, s: State, a: Action)
    requires |s.leases| == cfg.Count() && BudgetInv(cfg, s) && WakeInv(cfg, s) && PhaseInv(cfg, s)
    requires Enabled(cfg, s, a) && (a.Dispatch? || a.Exit? || a.Send?)
    ensures BudgetInv(cfg, Apply(cfg, s, a)) && WakeInv(cfg, Apply(cfg, s, a)) && PhaseInv(cfg, Apply(cfg, s, a))
  {
    assert !AllExited(s) by { assert !s.workers[a.worker].Exited?; }
  }

  // ---------- Steps of the collector that move segments ----------

  lemma ReceiveKept(cfg: Config, s: State)
    requires RunInv(cfg, s) && Enabled(cfg, s, Receive)
    ensures RunInv(cfg, ApplyReceive(s))
  {
    ReceivePlacesKept(cfg, s);
    ReceiveLeasesKept(cfg, s);
    ReceiveRestKept(cfg, s);
  }

  lemma ReceivePlacesKept(cfg: Config, s: State)
    requires ShapeInv(cfg, s) && PlacesInv(cfg, s) && PhaseInv(cfg, s) && Enabled(cfg, s, Receive)
    ensures ShapeInv(cfg, ApplyReceive(s)) && PlacesInv(cfg, ApplyReceive(s))
  {
    var t := ApplyReceive(s);
    HeadAlone(cfg, s);
    assert s.start <= s.queue[0].ordinal < s.sent;
    assert forall l :: 0 <= l < |t.queue| ==> t.queue[l] == s.queue[l + 1];
    forall i: nat | s.start <= i < cfg.Count() ensures Places(t, i) == 1 {
      assert Places(s, i) == 1;
      QueueAtPop(s.queue, i);
    }
  }

  lemma ReceiveRestKept(cfg: Config, s: State)
    requires ShapeInv(cfg, s) && PlacesInv(cfg, s) && Enabled(cfg, s, Receive)
    requires BudgetInv(cfg, s) && WakeInv(cfg, s) && PhaseInv(cfg, s)
    ensures var t := ApplyReceive(s); BudgetInv(cfg, t) && WakeInv(cfg, t) && PhaseInv(cfg, t)
  {
    HeadAlone(cfg, s);
  }

  lemma ReceiveLeasesKept(cfg: Config, s: State)
    requires RunInv(cfg, s) && Enabled(cfg, s, Receive)
    ensures LeaseInv(cfg, ApplyReceive(s))
  {
    var t, i0 := ApplyReceive(s), s.queue[0].ordinal;
    HeadAlone(cfg, s);
    assert MessageLease(cfg, s, s.queue[0]);
    forall l | 0 <= l < |t.workers| ensures WorkerLease(cfg, t, l) {
      assert WorkerLease(cfg, s, l);
    }
    forall l | 0 <= l < |t.queue| ensures MessageLease(cfg, t, t.queue[l]) {
      assert t.queue[l] == s.queue[l + 1];
      assert MessageLease(cfg, s, s.queue[l + 1]);
    }
    forall i | i in t.pending ensures PendingLease(cfg, t, i) {
      assert i != i0 ==> PendingLease(cfg, s, i);
    }
    forall i | 0 <= i < cfg.Count() && t.leases[i].Held? ensures HeldSomewhere(cfg, t, i) {
      assert HeldSomewhere(cfg, s, i);
      QueueAtPop(s.queue, i);
    }
  }

  // The lease of j was given back; whoever held j no longer counts on it.
  lemma ReleaseLeasesKept(cfg: Config, s: State, t: State, j: nat)
    requires ShapeInv(cfg, s) && PlacesInv(cfg, s) && LeaseInv(cfg, s)
    requires j < |s.leases| == |t.leases| && t.leases == s.leases[j := t.leases[j]]
    requires !t.leases[j].Held? && (t.leases[j] == s.leases[j] || s.leases[j].Held?)
    requires forall l :: 0 <= l < |s.workers| ==> !Holds(s.workers[l], j)
    requires t.sent == s.sent && t.workers == s.workers && j < s.sent
    requires t.queue == s.queue || (s.queue != [] && t.queue == s.queue[1..] && s.queue[0].ordinal == j)
    requires forall l :: 0 <= l < |t.queue| ==> t.queue[l].ordinal != j
    requires t.pending == s.pending || t.pending == s.pending - {j}
    requires j in t.pending ==> j < t.next || !Normal(t.phase)
    requires Normal(t.phase) ==> Normal(s.phase) && t.next >= s.next
    ensures LeaseInv(cfg, t)
  {
    forall l | 0 <= l < |t.workers| ensures WorkerLease(cfg, t, l) {
      assert WorkerLease(cfg, s, l) && !Holds(s.workers[l], j);
    }
    forall l | 0 <= l < |t.queue| ensures MessageLease(cfg, t, t.queue[l]) {
      assert t.queue[l] in s.queue;
      var m :| 0 <= m < |s.queue| && s.queue[m] == t.queue[l];
      assert MessageLease(cfg, s, s.queue[m]);
    }
    forall i | i in t.pending ensures PendingLease(cfg, t, i) {
      assert PendingLease(cfg, s, i);
    }
    forall i | 0 <= i < cfg.Count() && t.leases[i].Held? ensures HeldSomewhere(cfg, t, i) {
      assert i != j && HeldSomewhere(cfg, s, i);
      if t.queue != s.queue {
        QueueAtPop(s.queue, i);
      }
    }
  }

  predicate AppendSucceeds(cfg: Config, s: State)
    requires Enabled(cfg, s, Append)
  {
    && !s.callerDone
    && AppendFits(s.disk.writer, s.session, cfg.manifest.segments[s.next].Begin(), s.pending[s.next])
  }

  lemma AppendOkKept(cfg: Config, s: State)
    requires RunInv(cfg, s) && Enabled(cfg, s, Append) && AppendSucceeds(cfg, s)
    ensures RunInv(cfg, ApplyAppend(cfg, s))
  {
    AppendOkLeasesKept(cfg, s);
    AppendOkRouteKept(cfg, s);
  }

  lemma AppendOkRouteKept(cfg: Config, s: State)
    requires ShapeInv(cfg, s) && PlacesInv(cfg, s) && PhaseInv(cfg, s) && LeaseInv(cfg, s)
    requires Enabled(cfg, s, Append) && AppendSucceeds(cfg, s)
    ensures var t := ApplyAppend(cfg, s); ShapeInv(cfg, t) && PlacesInv(cfg, t) && PhaseInv(cfg, t)
  {
    AppendOkPlacesKept(cfg, s);
    assert PendingLease(cfg, s, s.next);
    hide Release, Writers.Appended, PlacesInv, WorkerLease, HeldSomewhere, MessageLease;
  }

  lemma AppendOkPlacesKept(cfg: Config, s: State)
    requires ShapeInv(cfg, s) && PlacesInv(cfg, s) && Enabled(cfg, s, Append) && AppendSucceeds(cfg, s)
    ensures PlacesInv(cfg, ApplyAppend(cfg, s))
  {
    hide Release, Writers.Appended;
    var t := ApplyAppend(cfg, s);
    PendingAlone(cfg, s, s.next);
    assert forall i: nat :: s.start <= i < cfg.Count() ==> Places(t, i) == Places(s, i);
  }

  lemma AppendOkLeasesKept(cfg: Config, s: State)
    requires |s.leases| == cfg.Count() && LeaseInv(cfg, s)
    requires Enabled(cfg, s, Append) && AppendSucceeds(cfg, s)
    ensures LeaseInv(cfg, ApplyAppend(cfg, s))
  {
    var t := ApplyAppend(cfg, s);
    forall l | 0 <= l < |t.workers| ensures WorkerLease(cfg, t, l) {
      assert WorkerLease(cfg, s, l);
    }
    forall l | 0 <= l < |t.queue| ensures MessageLease(cfg, t, t.queue[l]) {
      assert MessageLease(cfg, s, s.queue[l]);
    }
    forall i | i in t.pending ensures PendingLease(cfg, t, i) {
      assert PendingLease(cfg, s, i);
    }
    forall i | 0 <= i < cfg.Count() && t.leases[i].Held? ensures HeldSomewhere(cfg, t, i) {
      assert HeldSomewhere(cfg, s, i);
    }
  }

  lemma ReleaseWakes(cfg: Config, s: State, t: State, j: nat)
    requires |s.leases| == cfg.Count() && j < cfg.Count() && WakeInv(cfg, s)
    requires t.workers == s.workers && t.budget == Release(cfg, s, j).budget
    ensures WakeInv(cfg, t)
  {
  }

  lemma AppendFailKept(cfg: Config, s: State)
    requires RunInv(cfg, s) && Enabled(cfg, s, Append) && !AppendSucceeds(cfg, s)
    ensures RunInv(cfg, ApplyAppend(cfg, s))
  {
    var t := ApplyAppend(cfg, s);
    PendingAlone(cfg, s, s.next);
    ReleaseBudget(cfg, s, s.next);
    ReleaseWakes(cfg, s, t, s.next);
    ReleaseLeasesKept(cfg, s, t, s.next);
    SameRoute(cfg, s, t);
    AppendFailPhaseKept(cfg, s);
  }

  lemma AppendFailPhaseKept(cfg: Config, s: State)
    requires PhaseInv(cfg, s) && Enabled(cfg, s, Append) && !AppendSucceeds(cfg, s)
    ensures PhaseInv(cfg, ApplyAppend(cfg, s))
  {
  }

  lemma FreeLeaseKept(cfg: Config, s: State)
    requires RunInv(cfg, s) && Enabled(cfg, s, FreeLease)
    ensures RunInv(cfg, Apply(cfg, s, FreeLease))
  {
    var t := Apply(cfg, s, FreeLease);
    var j := s.next - 1;
    PendingAlone(cfg, s, j);
    ReleaseBudget(cfg, s, j);
    ReleaseWakes(cfg, s, t, j);
    ReleaseLeasesKept(cfg, s, t, j);
    SameRoute(cfg, s, t);
    FreeLeasePhaseKept(cfg, s);
  }

  lemma FreeLeasePhaseKept(cfg: Config, s: State)
    requires PhaseInv(cfg, s) && Enabled(cfg, s, FreeLease)
    ensures PhaseInv(cfg, Apply(cfg, s, FreeLease))
  {
  }

  // No segment changed place.
  lemma SameRoute(cfg: Config, s: State, t: State)
    requires ShapeInv(cfg, s) && PlacesInv(cfg, s)
    requires t == s.(leases := t.leases, budget := t.budget, phase := t.phase, workersDone := t.workersDone)
    requires |t.leases| == |s.leases| && t.budget.limit == s.budget.limit
    ensures ShapeInv(cfg, t) && PlacesInv(cfg, t)
  {
    assert forall i: nat :: Places(t, i) == Places(s, i);
  }

  lemma SaveOkKept(cfg: Config, s: State)
    requires RunInv(cfg, s) && Enabled(cfg, s, Save) && !s.callerDone
    ensures RunInv(cfg, ApplySave(cfg, s))
  {
    var t := ApplySave(cfg, s);
    PendingAlone(cfg, s, s.next - 1);
    ReleaseLeasesKept(cfg, s, t, s.next - 1);
    SaveRouteKept(cfg, s);
  }

  lemma SaveRouteKept(cfg: Config, s: State)
    requires ShapeInv(cfg, s) && PlacesInv(cfg, s) && PhaseInv(cfg, s)
    requires Enabled(cfg, s, Save) && !s.callerDone
    ensures var t := ApplySave(cfg, s); ShapeInv(cfg, t) && PlacesInv(cfg, t) && PhaseInv(cfg, t)
  {
    var t := ApplySave(cfg, s);
    assert forall i: nat :: Places(t, i) == Places(s, i);
  }

  lemma SaveFailKept(cfg: Config, s: State)
    requires RunInv(cfg, s) && Enabled(cfg, s, Save) && s.callerDone
    ensures RunInv(cfg, ApplySave(cfg, s))
  {
    ControlKept(cfg, s, ApplySave(cfg, s));
  }

  // ---------- Steps that discard segments after a failure ----------

  lemma ReleasePendingKept(cfg: Config, s: State, j: nat)
    requires RunInv(cfg, s) && Enabled(cfg, s, ReleasePending(j))
    ensures RunInv(cfg, DropPending(cfg, s, j))
  {
    var t := DropPending(cfg, s, j);
    PendingAlone(cfg, s, j);
    ReleaseBudget(cfg, s, j);
    ReleaseWakes(cfg, s, t, j);
    ReleaseLeasesKept(cfg, s, t, j);
    ReleasePendingRouteKept(cfg, s, j);
  }

  // A release touches one lease and the budget.
  lemma ReleaseOnly(cfg: Config, s: State, i: nat)
    requires i < |s.leases| == cfg.Count()
    ensures var t := Release(cfg, s, i);
      && t == s.(leases := t.leases, budget := t.budget) && |t.leases| == |s.leases|
      && t.budget.limit == s.budget.limit
  {
  }

  lemma ReleasePendingRouteKept(cfg: Config, s: State, j: nat)
    requires ShapeInv(cfg, s) && PlacesInv(cfg, s) && PhaseInv(cfg, s)
    requires Enabled(cfg, s, ReleasePending(j))
    ensures var t := DropPending(cfg, s, j); ShapeInv(cfg, t) && PlacesInv(cfg, t) && PhaseInv(cfg, t)
  {
    hide Release;
    ReleaseOnly(cfg, s, j);
    var t := DropPending(cfg, s, j);
    PendingAlone(cfg, s, j);
    assert forall i: nat :: Places(t, i) == Places(s, i);
  }

  lemma DrainKept(cfg: Config, s: State)
    requires RunInv(cfg, s) && Enabled(cfg, s, Drain)
    ensures RunInv(cfg, ApplyDrain(cfg, s))
  {
    var t, j := ApplyDrain(cfg, s), s.queue[0].ordinal;
    HeadAlone(cfg, s);
    ReleaseBudget(cfg, s, j);
    ReleaseWakes(cfg, s, t, j);
    assert forall l :: 0 <= l < |t.queue| ==> t.queue[l] == s.queue[l + 1];
    ReleaseLeasesKept(cfg, s, t, j);
    DrainRouteKept(cfg, s);
  }

  lemma DrainRouteKept(cfg: Config, s: State)
    requires ShapeInv(cfg, s) && PlacesInv(cfg, s) && PhaseInv(cfg, s) && Enabled(cfg, s, Drain)
    ensures var t := ApplyDrain(cfg, s); ShapeInv(cfg, t) && PlacesInv(cfg, t) && PhaseInv(cfg, t)
  {
    var t := ApplyDrain(cfg, s);
    HeadAlone(cfg, s);
    assert forall l :: 0 <= l < |t.queue| ==> t.queue[l] == s.queue[l + 1];
    forall i: nat | s.start <= i < cfg.Count() ensures Places(t, i) == 1 {
      assert Places(s, i) == 1;
      QueueAtPop(s.queue, i);
    }
  }

  // ---------- Every step ----------

  lemma WorkerStepKept(cfg: Config, s: State, a: Action)
    requires RunInv(cfg, s) && Enabled(cfg, s, a) && WorkerStep(a)
    ensures RunInv(cfg, Apply(cfg, s, a))
  {
    hide RunInv, ApplyCheck, ApplyLoadOk, ApplyReceive, ApplyAppend, ApplySave, DropPending, ApplyDrain;
    hide ApplyCommit, ApplyPutIndex, Release;
    match a
    case Dispatch(_) => HandoverKept(cfg, s, a);
    case Exit(_) => HandoverKept(cfg, s, a);
    case Send(_) => HandoverKept(cfg, s, a);
    case Check(k) => CheckKept(cfg, s, k);
    case Wake(_) => WaitStepKept(cfg, s, a);
    case GiveUp(_) => WaitStepKept(cfg, s, a);
    case LoadOk(k) => LoadOkKept(cfg, s, k);
    case LoadFail(k) => LoadFailKept(cfg, s, k);
  }

  // The collector's steps that move a segment or give back its lease.
  predicate SegmentStep(a: Action) {
    a.Receive? || a.Append? || a.FreeLease? || a.Save? || a.ReleasePending? || a.Drain?
  }

  lemma SegmentStepKept(cfg: Config, s: State, a: Action)
    requires RunInv(cfg, s) && Enabled(cfg, s, a) && SegmentStep(a)
    ensures RunInv(cfg, Apply(cfg, s, a))
  {
    hide RunInv, ApplyCheck, ApplyLoadOk, ApplyReceive, ApplyAppend, ApplySave, DropPending, ApplyDrain;
    hide ApplyCommit, ApplyPutIndex, Release;
    match a
    case Receive => ReceiveKept(cfg, s);
    case Append =>
      if AppendSucceeds(cfg, s) { AppendOkKept(cfg, s); } else { AppendFailKept(cfg, s); }
    case FreeLease => FreeLeaseKept(cfg, s);
    case Save => if s.callerDone { SaveFailKept(cfg, s); } else { SaveOkKept(cfg, s); }
    case ReleasePending(j) => ReleasePendingKept(cfg, s, j);
    case Drain => DrainKept(cfg, s);
  }

  lemma RunKept(cfg: Config, s: State, a: Action)
    requires RunInv(cfg, s) && Enabled(cfg, s, a)
    ensures RunInv(cfg, Apply(cfg, s, a))
  {
    hide RunInv, Apply, Enabled;
    if WorkerStep(a) {
      WorkerStepKept(cfg, s, a);
    } else if SegmentStep(a) {
      SegmentStepKept(cfg, s, a);
    } else {
      ControlStepKept(cfg, s, a);
    }
  }
}
