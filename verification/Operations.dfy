// operation/model.go, service.go and runner.go as a transition system. Every
// call in flight is a thread that remembers what it has read; a thread's step
// is one access to the catalog, the lease manager, the journal or the request
// table, so the reads and the compare-and-swap of one call are separate steps.
module Operations {
  import opened Prelude
  import opened Manifests
  import opened Writers
  import opened Loading
  import opened Policies
  import opened Catalogs
  import opened Sums
  import L = Leases
  import MergeMachine
  import MergeInvariant
  import MergeOutput

  // ---------- operation/model.go ----------

  datatype Request = Request(manifest: Manifest, segments: Source, key: string)

  // Request.Validate
  ghost predicate ValidRequest(r: Request) {
    && r.key != "" && Acceptable(r.manifest)
    && forall s :: s in r.manifest.segments ==>
         s.id in r.segments && |r.segments[s.id]| == s.storedSize as int
  }

  datatype Op = Op(
    id: string, key: string, manifest: Manifest, state: OpState,
    attempt: int, fence: nat, owner: string, result: Option<CommitReceipt>)

  predicate Terminal(s: OpState) {
    s.Completed? || s.Failed? || s.Cancelled?
  }

  predicate CanStart(s: OpState) {
    s.Accepted? || s.Retrying?
  }

  // Operation.transition
  predicate MayBecome(s: OpState, next: OpState) {
    match s
    case Accepted => next.Running? || next.Cancelled? || next.Failed?
    case Running => next.Completed? || next.Retrying? || next.Failed? || next.Cancelled?
    case Retrying => next.Running? || next.Cancelled? || next.Failed?
    case _ => false
  }

  function ToRecord(op: Op): Record {
    Record(op.id, op.manifest.fileID, op.key, op.state, 0, op.attempt, op.fence, op.owner, op.result)
  }

  function FromRecord(r: Record, manifest: Manifest): Op {
    Op(r.id, r.key, manifest, r.state, r.attempt, r.fence, r.owner, r.result)
  }

  function NewOp(id: string, request: Request): Op {
    Op(id, request.key, request.manifest, Accepted, 0, 0, "", None)
  }

  // ---------- State ----------

  // A journal event; its kind is named after the state it reports ("started" is Running).
  datatype Event = Event(operationID: string, kind: OpState, attempt: int, fence: nat)

  function EventOf(op: Op): Event {
    if op.state.Cancelled? || op.state.Accepted? then Event(op.id, op.state, 0, 0)
    else Event(op.id, op.state, op.attempt, op.fence)
  }

  datatype Thread =
    // Submit
    | Admitting(request: Request)
    | Creating(request: Request)
    | Storing(op: Op, request: Request)
    | Accepting(op: Op)
    | Undoing(op: Op)
    // Run; `seen` is the revision of the record that Get returned
    | Looking(id: string)
    | Leasing(op: Op, seen: nat)
    | Reading(op: Op, seen: nat, lease: L.Lease)
    | Starting(op: Op, seen: nat, lease: L.Lease, revision: nat)
    | Noting(op: Op, lease: L.Lease, revision: nat)
    | Judging(op: Op, lease: L.Lease, revision: nat)
    | Merging(op: Op, lease: L.Lease, revision: nat)
    | Completing(op: Op, lease: L.Lease, revision: nat, receipt: CommitReceipt)
    | Failing(op: Op, lease: L.Lease, revision: nat, cause: FailureClass)
    | Publishing(op: Op, lease: L.Lease, receipt: CommitReceipt)
    | Concluding(op: Op, held: Option<L.Lease>)
    | Leaving(lease: L.Lease)
    // Cancel
    | CancelLooking(id: string)
    | CancelReading(op: Op, seen: nat)
    | Cancelling(op: Op, seen: nat, revision: nat)
    | Gone

  // What the threads share. The last three parts are history: `tight` while no
  // Start or Cancel has replaced a record other than the one it had read,
  // `lawful` while each of their swaps met the condition of its kind below, and
  // `endsKept` while none has replaced the record of an operation that had ended.
  datatype Shared = Shared(
    tables: Tables, ledger: L.Ledger, requests: map<string, Request>, journal: seq<Event>,
    tight: bool, lawful: bool, endsKept: bool)

  // `widest` is history: the most Submits there ever were between admission and creation.
  datatype State = State(shared: Shared, threads: seq<Thread>, widest: nat)

  datatype Settings = Settings(env: Env, limits: Limits, workerID: string, ttl: int)

  // What is not determined by the state: a clock reading, a generated name,
  // whether the context and the journal let a step pass, and how a merge ends.
  datatype Choice = Choice(now: int, id: string, ok: bool, outcome: MergeOutcome)

  datatype MergeOutcome = Merged(receipt: CommitReceipt) | Unmerged(cause: FailureClass)

  // A call arrives, a call in flight takes a step, or someone else uses the lease manager.
  datatype Action = Arrive(thread: Thread) | Go(k: nat, choice: Choice) | LeaseCall(call: L.Call)

  const INITIAL := State(Shared(EMPTY, L.Ledger(0, map[]), map[], [], true, true, true), [], 0)

  predicate Ended(t: Tables, id: string) {
    id in t.operations && Terminal(t.operations[id].state)
  }

  // What a Start and a Cancel that read this operation at `seen` may replace:
  // a Start nothing else, a Cancel also the next revision of an operation it
  // read running and whose attempts are not used up.
  predicate StartMayReplace(seen: nat, revision: nat) {
    seen == revision
  }

  predicate CancelMayReplace(op: Op, seen: nat, revision: nat, limit: int) {
    seen == revision || (op.state.Running? && revision == seen + 1 && op.attempt < limit)
  }

  // A Start or Cancel that read revision `seen` stores this operation over `revision`.
  function Swap(w: Shared, op: Op, seen: nat, revision: nat, may: bool): Shared {
    w.(tables := AfterUpdate(w.tables, ToRecord(op), revision),
       tight := w.tight && seen == revision,
       lawful := w.lawful && may,
       endsKept := w.endsKept && !Ended(w.tables, op.id))
  }

  ghost function Active(t: Tables): set<string> {
    set id | id in t.operations && !Terminal(t.operations[id].state)
  }

  // currentLoad
  ghost function CurrentLoad(t: Tables): Load {
    Load(|InState(t, Accepted)| + |InState(t, Running)| + |InState(t, Retrying)|, 0)
  }

  lemma LoadCountsActive(t: Tables)
    ensures CurrentLoad(t).activeOperations == |Active(t)|
  {
    var a, b, c := InState(t, Accepted), InState(t, Running), InState(t, Retrying);
    var ab := a + b;
    assert |ab| == |a| + |b| && |ab + c| == |ab| + |c|;
    forall id ensures id in Active(t) <==> id in ab + c {
    }
    assert Active(t) == ab + c;
  }

  // ---------- Steps ----------

  function RequestOf(w: Shared, id: string): Request {
    if id in w.requests then w.requests[id] else Request(Manifest("", "", 0, []), map[], "")
  }

  function Get(w: Shared, id: string): Option<Op> {
    if id in w.tables.operations && id in w.requests
    then Some(FromRecord(w.tables.operations[id], w.requests[id].manifest)) else None
  }

  function Resource(m: Manifest): string {
    "merge/" + m.fileID
  }

  ghost function Admits(e: Settings, w: Shared, m: Manifest): bool {
    Decide(e.limits, m, CurrentLoad(w.tables)).allowed
  }

  ghost function SubmitMove(e: Settings, w: Shared, t: Thread, c: Choice): (Shared, Thread) {
    match t
    case Admitting(request) =>
      if ValidRequest(request) && Admits(e, w, request.manifest) then (w, Creating(request)) else (w, Gone)
    case Creating(request) =>
      var op := NewOp(c.id, request);
      if Create(w.tables, ToRecord(op)).Created?
      then (w.(tables := AfterCreate(w.tables, ToRecord(op))), Storing(op, request))
      else (w, Gone)
    case Storing(op, request) => (w.(requests := w.requests[op.id := request]), Accepting(op))
    case Accepting(op) =>
      if c.ok then (w.(journal := w.journal + [EventOf(op)]), Gone) else (w, Undoing(op))
    case Undoing(op) => (w.(tables := AfterUpdate(w.tables, ToRecord(op.(state := Failed)), 1)), Gone)
    case _ => (w, t)
  }

  function Started(op: Op, lease: L.Lease): Op {
    op.(state := Running, attempt := op.attempt + 1, fence := lease.fence, owner := lease.owner)
  }

  ghost function StartMove(e: Settings, w: Shared, t: Thread, c: Choice): (Shared, Thread) {
    match t
    case Looking(id) =>
      var got := Get(w, id);
      if c.ok && got.Some? && CanStart(got.value.state)
      then (w, Leasing(got.value, w.tables.operations[id].revision)) else (w, Gone)
    case Leasing(op, seen) =>
      var call := L.Acquire(Resource(op.manifest), e.workerID, e.ttl, c.now);
      var granted := L.Acquired(w.ledger, call);
      if granted.Success? then (w.(ledger := L.After(w.ledger, call)), Reading(op, seen, granted.value))
      else (w, Gone)
    case Reading(op, seen, lease) =>
      if op.id in w.tables.operations
      then (w, Starting(op, seen, lease, w.tables.operations[op.id].revision)) else (w, Leaving(lease))
    case Starting(op, seen, lease, revision) =>
      var running := Started(op, lease);
      if Update(w.tables, ToRecord(running), revision).Success?
      then (Swap(w, running, seen, revision, StartMayReplace(seen, revision)), Noting(running, lease, revision + 1))
      else (w, Leaving(lease))
    case _ => (w, t)
  }

  function AfterFailure(e: Settings, op: Op, cause: FailureClass): Op {
    op.(state := if Retry(e.limits, op.attempt, cause).retry then Retrying else Failed)
  }

  ghost function FinishMove(e: Settings, w: Shared, t: Thread, c: Choice): (Shared, Thread) {
    match t
    case Noting(op, lease, revision) =>
      if c.ok then (w.(journal := w.journal + [EventOf(op)]), Judging(op, lease, revision)) else (w, Leaving(lease))
    case Judging(op, lease, revision) =>
      (w, if Admits(e, w, RequestOf(w, op.id).manifest) then Merging(op, lease, revision)
          else Failing(op, lease, revision, Permanent))
    case Merging(op, lease, revision) =>
      (w, match c.outcome
          case Merged(receipt) => Completing(op, lease, revision, receipt)
          case Unmerged(cause) => Failing(op, lease, revision, cause))
    case Completing(op, lease, revision, receipt) =>
      var done := op.(state := Completed, result := Some(receipt));
      if Update(w.tables, ToRecord(done), revision).Success?
      then (w.(tables := AfterUpdate(w.tables, ToRecord(done), revision)), Publishing(done, lease, receipt))
      else (w, Leaving(lease))
    case Failing(op, lease, revision, cause) =>
      var failed := AfterFailure(e, op, cause);
      if Update(w.tables, ToRecord(failed), revision).Success?
      then (w.(tables := AfterUpdate(w.tables, ToRecord(failed), revision)), Concluding(failed, Some(lease)))
      else (w, Leaving(lease))
    case Publishing(op, lease, receipt) =>
      var artifact := Artifact(receipt, op.id);
      if PutError(w.tables, artifact).Some? then (w, Leaving(lease))
      else (w.(tables := AfterPut(w.tables, artifact)), Concluding(op, Some(lease)))
    case Concluding(op, held) =>
      (if c.ok then w.(journal := w.journal + [EventOf(op)]) else w,
       if held.Some? then Leaving(held.value) else Gone)
    case Leaving(lease) =>
      (w.(ledger := L.After(w.ledger, L.Release(lease.resource, lease.owner, lease.fence))), Gone)
    case _ => (w, t)
  }

  ghost function CancelMove(e: Settings, w: Shared, t: Thread, c: Choice): (Shared, Thread) {
    match t
    case CancelLooking(id) =>
      var got := Get(w, id);
      if c.ok && got.Some? && !Terminal(got.value.state)
      then (w, CancelReading(got.value, w.tables.operations[id].revision)) else (w, Gone)
    case CancelReading(op, seen) => (w, Cancelling(op, seen, Lookup(w.tables, op.id).revision))
    case Cancelling(op, seen, revision) =>
      var cancelled := op.(state := OpState.Cancelled);
      if Update(w.tables, ToRecord(cancelled), revision).Success?
      then (Swap(w, cancelled, seen, revision, CancelMayReplace(op, seen, revision, e.limits.maxAttempts)),
            Concluding(cancelled, None))
      else (w, Gone)
    case _ => (w, t)
  }

  predicate Submits(t: Thread) {
    t.Admitting? || t.Creating? || t.Storing? || t.Accepting? || t.Undoing?
  }

  predicate Starts(t: Thread) {
    t.Looking? || t.Leasing? || t.Reading? || t.Starting?
  }

  predicate Cancels(t: Thread) {
    t.CancelLooking? || t.CancelReading? || t.Cancelling?
  }

  ghost function Move(e: Settings, w: Shared, t: Thread, c: Choice): (Shared, Thread) {
    if Submits(t) then SubmitMove(e, w, t, c)
    else if Starts(t) then StartMove(e, w, t, c)
    else if Cancels(t) then CancelMove(e, w, t, c)
    else FinishMove(e, w, t, c)
  }

  // What a merge of this request publishes when it succeeds.
  ghost predicate MergeYields(env: Env, r: Request, receipt: CommitReceipt) {
    var cfg := MergeMachine.Config(env, r.segments, Compiled(r.manifest));
    && MergeInvariant.ConfigOk(cfg) && MergeOutput.AllLoad(cfg)
    && receipt == MergeOutput.ExpectedReceipt(cfg, MergeOutput.Expected(cfg))
  }

  // A merge in this system ends as the merge machine allows.
  ghost predicate Allowed(e: Settings, w: Shared, t: Thread, c: Choice) {
    t.Merging? && c.outcome.Merged? ==> MergeYields(e.env, RequestOf(w, t.op.id), c.outcome.receipt)
  }

  ghost function Width(threads: seq<Thread>): int {
    Sum(seq(|threads|, k requires 0 <= k < |threads| => One(threads[k].Creating?)))
  }

  ghost predicate Enabled(e: Settings, s: State, a: Action) {
    match a
    case Arrive(t) => t.Admitting? || t.Looking? || t.CancelLooking?
    case Go(k, c) => k < |s.threads| && Allowed(e, s.shared, s.threads[k], c)
    case LeaseCall(_) => true
  }

  ghost function Apply(e: Settings, s: State, a: Action): State
    requires Enabled(e, s, a)
  {
    match a
    case Arrive(t) => s.(threads := s.threads + [t])
    case Go(k, c) =>
      var moved := Move(e, s.shared, s.threads[k], c);
      var threads := s.threads[k := moved.1];
      State(moved.0, threads, if Width(threads) > s.widest then Width(threads) else s.widest)
    case LeaseCall(call) => s.(shared := s.shared.(ledger := L.After(s.shared.ledger, call)))
  }

  ghost predicate StepAt(e: Settings, run: seq<State>, k: nat)
    requires k + 1 < |run|
  {
    exists a :: Enabled(e, run[k], a) && run[k + 1] == Apply(e, run[k], a)
  }

  ghost predicate IsRun(e: Settings, run: seq<State>) {
    run != [] && run[0] == INITIAL && forall k :: 0 <= k < |run| - 1 ==> StepAt(e, run, k)
  }
}
