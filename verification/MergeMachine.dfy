// segmentmerge/service.go as a transition system: the dispatcher, the load
// workers, the byte budget and the collecting loop of Merge, each critical
// section, channel operation and durable write being one atomic step.
module MergeMachine {
  import opened Prelude
  import opened Manifests
  import opened Budgets
  import opened Writers
  import opened Loading

  // What stays the same for a file version: the compiled manifest and the
  // bytes the source holds.
  datatype Config = Config(env: Env, source: Source, manifest: Manifest)
  {
    function Count(): nat { |manifest.segments| }

    function Weight(i: nat): int
      requires i < Count()
    {
      manifest.segments[i].Weight()
    }

    function Data(i: nat): Result<bytes, LoadError>
      requires i < Count()
    {
      Content(env, source, manifest.segments[i])
    }

    function FileID(): string { manifest.fileID }
  }

  datatype Worker =
    | Idle
    | Checking(job: nat)
    | Waiting(job: nat, seen: nat)
    | Holding(job: nat)
    | Marked(job: nat, data: bytes)
    | Failing(job: nat)
    | Exited

  // A loadResult on the buffered channel.
  datatype Message = Loaded(ordinal: nat, data: bytes) | Unloadable(ordinal: nat)

  // The lease of an ordinal: not taken yet, held with the marked bytes, or
  // given back (BudgetLease.released).
  datatype Hold = Fresh | Held(resident: int) | Released

  datatype End = Success | Aborted | NotCommitted | OnlyCommitted

  // Where the goroutine running Merge stands.
  datatype Phase =
    | Receiving            // for result := range results
    | Flushing             // loaded, ok := pending[next]
    | Appended(data: bytes)
    | Freed(data: bytes)
    | Releasing            // releasePending
    | Draining             // drainLoadResults
    | Aborting
    | Clearing
    | Committing
    | Indexing
    | Unmarking            // checkpoints.Clear after the index entry
    | Finished(end: End)

  // What outlives a run.
  datatype Disk = Disk(
    writer: WriterState, checkpoints: map<string, Checkpoint>, index: map<string, CommitReceipt>)

  // `received` is history: every result taken from the channel so far.
  datatype State = State(
    start: nat, session: string,
    sent: nat, workers: seq<Worker>, queue: seq<Message>,
    leases: seq<Hold>, budget: Budget,
    pending: map<nat, bytes>, next: nat, phase: Phase,
    callerDone: bool, workersDone: bool,
    dropped: set<nat>, received: seq<Message>,
    disk: Disk)

  datatype Action =
    | Dispatch(worker: nat)
    | Exit(worker: nat)
    | Check(worker: nat)
    | Wake(worker: nat)
    | GiveUp(worker: nat)
    | LoadOk(worker: nat)
    | LoadFail(worker: nat)
    | Send(worker: nat)
    | Receive
    | Append
    | FreeLease
    | Save
    | EndFlush
    | Close
    | CloseIncomplete
    | ReleasePending(ordinal: nat)
    | EndRelease
    | Drain
    | EndDrain
    | AbortSession
    | ClearCheckpoint
    | Commit
    | PutIndex
    | ClearDone
    | CancelCaller

  predicate AllExited(s: State) {
    forall k :: 0 <= k < |s.workers| ==> s.workers[k].Exited?
  }

  // ---------- The start of a run: BuildPlan, Begin, loadAll ----------

  function StoredCheckpoint(cfg: Config, disk: Disk): Option<Checkpoint> {
    if cfg.FileID() in disk.checkpoints then Some(disk.checkpoints[cfg.FileID()]) else None
  }

  function PlanFor(cfg: Config, checkpoint: Option<Checkpoint>): MergePlan
    requires checkpoint.Some? ==> 0 <= checkpoint.value.nextOrdinal <= cfg.Count()
  {
    var m := cfg.manifest;
    var start := if checkpoint.Some? then checkpoint.value.nextOrdinal else 0;
    var session := if checkpoint.Some? then checkpoint.value.sessionID else "";
    MergePlan(m.fileID, m.version, m.totalSize, start, session,
      seq(cfg.Count() - start, k requires 0 <= k < cfg.Count() - start => EntryFor(m.segments, start + k)))
  }

  function Clamp(x: int): int {
    if x < 1 then 1 else x
  }

  // None when the plan or the session is refused.
  function Start(cfg: Config, disk: Disk, concurrency: int, limit: int): Option<State>
    requires cfg.manifest.totalSize >= 0
  {
    var checkpoint := StoredCheckpoint(cfg, disk);
    if checkpoint.Some? &&
       (!checkpoint.value.Matches(cfg.manifest) || !(0 <= checkpoint.value.nextOrdinal <= cfg.Count())) then None
    else
      var plan := PlanFor(cfg, checkpoint);
      var begun := Begun(disk.writer, plan);
      if begun.None? then None
      else
        var n := cfg.Count() - plan.startOrdinal;
        var crew := if Clamp(concurrency) > n then n else Clamp(concurrency);
        Some(State(
          plan.startOrdinal, begun.value.0,
          plan.startOrdinal, seq(crew, _ => Idle), [],
          seq(cfg.Count(), _ => Fresh), NewBudget(limit),
          map[], plan.startOrdinal, Receiving,
          false, false, {}, [],
          disk.(writer := begun.value.1)))
  }

  // ---------- Steps ----------

  function SetWorker(s: State, k: nat, w: Worker): State
    requires k < |s.workers|
  {
    s.(workers := s.workers[k := w])
  }

  // BudgetLease.Release: a second call on the same lease changes nothing.
  function Release(cfg: Config, s: State, i: nat): State
    requires i < |s.leases| == cfg.Count()
  {
    if s.leases[i].Held? then
      s.(leases := s.leases[i := Released], budget := Free(s.budget, cfg.Weight(i), s.leases[i].resident))
    else s
  }

  predicate Job(cfg: Config, s: State, k: nat) {
    && k < |s.workers| && |s.leases| == cfg.Count()
    && match s.workers[k] {
         case Checking(j) => j < cfg.Count()
         case Waiting(j, _) => j < cfg.Count()
         case Holding(j) => j < cfg.Count()
         case Marked(j, _) => j < cfg.Count()
         case Failing(j) => j < cfg.Count()
         case _ => false
       }
  }

  predicate Enabled(cfg: Config, s: State, a: Action) {
    match a
    case Dispatch(k) => k < |s.workers| && s.workers[k].Idle? && s.sent < cfg.Count()
    case Exit(k) => k < |s.workers| && s.workers[k].Idle? && s.sent >= cfg.Count()
    case Check(k) => Job(cfg, s, k) && s.workers[k].Checking?
    case Wake(k) => Job(cfg, s, k) && s.workers[k].Waiting? && s.workers[k].seen != s.budget.generation
    case GiveUp(k) => Job(cfg, s, k) && s.workers[k].Waiting? && s.workersDone
    case LoadOk(k) => Job(cfg, s, k) && s.workers[k].Holding? && cfg.Data(s.workers[k].job).Success?
    case LoadFail(k) => Job(cfg, s, k) && s.workers[k].Holding?
    case Send(k) => Job(cfg, s, k) && (s.workers[k].Marked? || s.workers[k].Failing?)
    case Receive => s.phase.Receiving? && s.queue != []
    case Append => s.phase.Flushing? && s.next in s.pending && s.next < cfg.Count() == |s.leases|
    case FreeLease => s.phase.Appended? && 0 < s.next <= cfg.Count() == |s.leases|
    case Save => s.phase.Freed? && 0 < s.next <= cfg.Count()
    case EndFlush => s.phase.Flushing? && s.next !in s.pending
    case Close => s.phase.Receiving? && s.queue == [] && AllExited(s) && s.next == cfg.Count()
    case CloseIncomplete => s.phase.Receiving? && s.queue == [] && AllExited(s) && s.next != cfg.Count()
    case ReleasePending(i) => s.phase.Releasing? && i in s.pending && i < cfg.Count() == |s.leases|
    case EndRelease => s.phase.Releasing? && s.pending == map[]
    case Drain => s.phase.Draining? && s.queue != [] && s.queue[0].ordinal < cfg.Count() == |s.leases|
    case EndDrain => s.phase.Draining? && s.queue == [] && AllExited(s)
    case AbortSession => s.phase.Aborting?
    case ClearCheckpoint => s.phase.Clearing?
    case Commit => s.phase.Committing?
    case PutIndex => s.phase.Indexing? && cfg.FileID() in s.disk.writer.outputs
    case ClearDone => s.phase.Unmarking?
    case CancelCaller => !s.callerDone
  }

  function Apply(cfg: Config, s: State, a: Action): State
    requires Enabled(cfg, s, a)
  {
    match a
    case Dispatch(k) => SetWorker(s, k, Checking(s.sent)).(sent := s.sent + 1)
    case Exit(k) => SetWorker(s, k, Exited)
    case Check(k) => ApplyCheck(cfg, s, k)
    case Wake(k) => SetWorker(s, k, Checking(s.workers[k].job))
    case GiveUp(k) => SetWorker(s, k, Failing(s.workers[k].job))
    case LoadOk(k) => ApplyLoadOk(cfg, s, k)
    case LoadFail(k) =>
      var j := s.workers[k].job;
      SetWorker(Release(cfg, s, j), k, Failing(j))
    case Send(k) =>
      var w := s.workers[k];
      var message := if w.Marked? then Message.Loaded(w.job, w.data) else Unloadable(w.job);
      SetWorker(s, k, Idle).(queue := s.queue + [message])
    case Receive => ApplyReceive(s)
    case Append => ApplyAppend(cfg, s)
    case FreeLease => Release(cfg, s, s.next - 1).(phase := Freed(s.phase.data))
    case Save => ApplySave(cfg, s)
    case EndFlush => s.(phase := Receiving)
    case Close => s.(phase := Committing)
    case CloseIncomplete => s.(phase := Releasing)
    case ReleasePending(i) => DropPending(cfg, s, i)
    case EndRelease => s.(phase := Draining)
    case Drain => ApplyDrain(cfg, s)
    case EndDrain => s.(phase := Aborting)
    case AbortSession =>
      s.(phase := Clearing, disk := s.disk.(writer := Writers.Aborted(s.disk.writer, s.session)))
    case ClearCheckpoint =>
      s.(phase := Finished(End.Aborted), disk := s.disk.(checkpoints := s.disk.checkpoints - {cfg.FileID()}))
    case Commit => ApplyCommit(cfg, s)
    case PutIndex => ApplyPutIndex(cfg, s)
    case ClearDone =>
      if s.callerDone then s.(phase := Finished(OnlyCommitted))
      else s.(phase := Finished(End.Success), disk := s.disk.(checkpoints := s.disk.checkpoints - {cfg.FileID()}))
    case CancelCaller => s.(callerDone := true, workersDone := true)
  }

  // One pass of ByteBudget.Acquire.
  function ApplyCheck(cfg: Config, s: State, k: nat): State
    requires Enabled(cfg, s, Check(k))
  {
    var j := s.workers[k].job;
    var weight := cfg.Weight(j);
    if weight < 1 || weight > s.budget.limit then SetWorker(s, k, Failing(j))
    else if Fits(s.budget, weight) then
      SetWorker(s, k, Holding(j)).(budget := Reserve(s.budget, weight), leases := s.leases[j := Held(0)])
    else SetWorker(s, k, Waiting(j, s.budget.generation))
  }

  // The segment passed its checks; its bytes are marked resident.
  function ApplyLoadOk(cfg: Config, s: State, k: nat): State
    requires Enabled(cfg, s, LoadOk(k))
  {
    var j := s.workers[k].job;
    var data := cfg.Data(j).value;
    SetWorker(s, k, Marked(j, data)).(budget := Mark(s.budget, |data|), leases := s.leases[j := Held(|data|)])
  }

  function ApplyReceive(s: State): State
    requires s.queue != []
  {
    var message := s.queue[0];
    var rest := s.(queue := s.queue[1..], received := s.received + [message]);
    match message
    case Loaded(i, data) => rest.(pending := s.pending[i := data], phase := Flushing)
    case Unloadable(i) => rest.(workersDone := true, phase := Releasing, dropped := s.dropped + {i})
  }

  function ApplyAppend(cfg: Config, s: State): State
    requires Enabled(cfg, s, Append)
  {
    var data := s.pending[s.next];
    var offset := cfg.manifest.segments[s.next].Begin();
    if !s.callerDone && AppendFits(s.disk.writer, s.session, offset, data) then
      s.(disk := s.disk.(writer := Writers.Appended(s.disk.writer, s.session, offset, data)),
         next := s.next + 1, phase := Phase.Appended(data))
    else Release(cfg, s, s.next).(workersDone := true, phase := Releasing)
  }

  function ApplySave(cfg: Config, s: State): State
    requires Enabled(cfg, s, Save)
  {
    if s.callerDone then s.(workersDone := true, phase := Releasing)
    else
      var size := cfg.manifest.segments[s.next - 1].Begin() + |s.phase.data|;
      var mark := Checkpoint(cfg.FileID(), cfg.manifest.version, s.session, s.next, size);
      s.(disk := s.disk.(checkpoints := s.disk.checkpoints[cfg.FileID() := mark]),
         pending := s.pending - {s.next - 1}, phase := Flushing)
  }

  function DropPending(cfg: Config, s: State, i: nat): State
    requires i < cfg.Count() == |s.leases|
  {
    Release(cfg, s, i).(
      pending := s.pending - {i}, dropped := if i < s.next then s.dropped else s.dropped + {i})
  }

  function ApplyDrain(cfg: Config, s: State): State
    requires Enabled(cfg, s, Drain)
  {
    var i := s.queue[0].ordinal;
    Release(cfg, s, i).(
      queue := s.queue[1..], received := s.received + [s.queue[0]], dropped := s.dropped + {i})
  }

  function ApplyCommit(cfg: Config, s: State): State {
    if s.callerDone || s.session !in s.disk.writer.drafts then s.(phase := Finished(NotCommitted))
    else
      s.(phase := Indexing,
         disk := s.disk.(writer := Writers.Committed(cfg.env.digest, s.disk.writer, s.session)))
  }

  function ApplyPutIndex(cfg: Config, s: State): State
    requires cfg.FileID() in s.disk.writer.outputs
  {
    var receipt := s.disk.writer.outputs[cfg.FileID()];
    if s.callerDone || !ReceiptOk(receipt) then s.(phase := Finished(OnlyCommitted))
    else s.(phase := Unmarking, disk := s.disk.(index := s.disk.index[cfg.FileID() := receipt]))
  }

  // ---------- Runs ----------

  ghost predicate Step(cfg: Config, s: State, t: State) {
    exists a :: Enabled(cfg, s, a) && t == Apply(cfg, s, a)
  }

  ghost predicate StepAt(cfg: Config, run: seq<State>, k: nat)
    requires k + 1 < |run|
  {
    Step(cfg, run[k], run[k + 1])
  }

  ghost predicate IsRun(cfg: Config, run: seq<State>) {
    && run != []
    && forall i :: 0 <= i < |run| - 1 ==> StepAt(cfg, run, i)
  }

  ghost predicate RunTo(cfg: Config, run: seq<State>, s: State, t: State) {
    IsRun(cfg, run) && run[0] == s && run[|run| - 1] == t
  }

  ghost predicate Reaches(cfg: Config, s: State, t: State) {
    exists run :: RunTo(cfg, run, s, t)
  }

  lemma ReachesSelf(cfg: Config, s: State)
    ensures Reaches(cfg, s, s)
  {
    assert RunTo(cfg, [s], s, s);
  }

  lemma ReachesStep(cfg: Config, s: State, t: State, a: Action)
    requires Reaches(cfg, s, t) && Enabled(cfg, t, a)
    ensures Reaches(cfg, s, Apply(cfg, t, a))
  {
    var run :| RunTo(cfg, run, s, t);
    var longer := run + [Apply(cfg, t, a)];
    forall i | 0 <= i < |longer| - 1 ensures StepAt(cfg, longer, i) {
      if i < |run| - 1 {
        assert StepAt(cfg, run, i);
      } else {
        assert Enabled(cfg, t, a);
      }
    }
    assert RunTo(cfg, longer, s, Apply(cfg, t, a));
  }
}
