// What the workers of the merge machine send, and that it is what the object
// model of Merge is promised: every planned ordinal once, with its verified bytes.
module MergeResults {
  import opened Prelude
  import opened Manifests
  import opened Budgets
  import opened Loading
  import opened Sums
  import opened MergeMachine
  import opened MergeInvariant
  import opened MergeOutput
  import opened MergeHistory
  import Mergers

  // Every result sent so far, in the order of the channel.
  function Sent(s: State): seq<Message> {
    s.received + s.queue
  }

  ghost predicate MessageOk(cfg: Config, start: nat, m: Message) {
    && start <= m.ordinal < cfg.Count()
    && (m.Loaded? ==> cfg.Data(m.ordinal) == Result.Success(m.data))
  }

  // A dispatched ordinal is with one worker or was sent once.
  ghost predicate SentOnce(s: State, i: nat) {
    WorkersAt(s.workers, i) + QueueAt(Sent(s), i) == One(i < s.sent)
  }

  ghost predicate SentInv(cfg: Config, s: State) {
    && (forall k :: 0 <= k < |Sent(s)| ==> MessageOk(cfg, s.start, Sent(s)[k]))
    && (forall i: nat :: s.start <= i < cfg.Count() ==> SentOnce(s, i))
  }

  // Nothing was dispatched or sent.
  ghost predicate StillSent(s: State, t: State) {
    && t.start == s.start && t.sent == s.sent && Sent(t) == Sent(s) && |t.workers| == |s.workers|
    && forall k, i :: 0 <= k < |s.workers| ==> (Holds(t.workers[k], i) <==> Holds(s.workers[k], i))
  }

  lemma StillSentKept(cfg: Config, s: State, t: State)
    requires SentInv(cfg, s) && StillSent(s, t)
    ensures SentInv(cfg, t)
  {
    forall i: nat | s.start <= i < cfg.Count() ensures SentOnce(t, i) {
      assert SentOnce(s, i);
      assert HolderMarks(t.workers, i) == HolderMarks(s.workers, i);
    }
  }

  lemma WorkerStillSent(cfg: Config, s: State, a: Action)
    requires Enabled(cfg, s, a)
    requires a.Exit? || a.Check? || a.Wake? || a.GiveUp? || a.LoadOk? || a.LoadFail?
    ensures StillSent(s, Apply(cfg, s, a))
  {
    hide ApplyReceive, ApplyAppend, ApplySave, DropPending, ApplyDrain, ApplyCommit, ApplyPutIndex, Fits, Release;
    if a.LoadFail? {
      ReleaseOnly(cfg, s, s.workers[a.worker].job);
    }
  }

  lemma CollectorStillSent(cfg: Config, s: State, a: Action)
    requires Enabled(cfg, s, a)
    requires !a.Dispatch? && !a.Send? && !a.Exit? && !a.Check? && !a.Wake? && !a.GiveUp? && !a.LoadOk? && !a.LoadFail?
    ensures StillSent(s, Apply(cfg, s, a))
  {
    hide ApplyCheck, ApplyLoadOk, Holds;
    if a.Receive? || a.Drain? {
      TakenStillSent(cfg, s, a);
    }
  }

  // The head of the channel becomes the last result received.
  lemma TakenStillSent(cfg: Config, s: State, a: Action)
    requires Enabled(cfg, s, a) && (a.Receive? || a.Drain?)
    ensures StillSent(s, Apply(cfg, s, a))
  {
    hide Holds;
    var t := Apply(cfg, s, a);
    assert t.queue == s.queue[1..] && t.received == s.received + [s.queue[0]];
    assert t.workers == s.workers && t.start == s.start && t.sent == s.sent;
    assert s.queue == [s.queue[0]] + s.queue[1..];
    assert Sent(t) == Sent(s);
  }

  lemma DispatchKept(cfg: Config, s: State, k: nat)
    requires ShapeInv(cfg, s) && SentInv(cfg, s) && Enabled(cfg, s, Dispatch(k))
    ensures SentInv(cfg, Apply(cfg, s, Dispatch(k)))
  {
    var t := Apply(cfg, s, Dispatch(k));
    assert Sent(t) == Sent(s) && t.start == s.start;
    forall i: nat | s.start <= i < cfg.Count() ensures SentOnce(t, i) {
      assert SentOnce(s, i);
      WorkersAtSet(s.workers, k, t.workers[k], i);
    }
  }

  lemma SendKept(cfg: Config, s: State, k: nat)
    requires ShapeInv(cfg, s) && LeaseInv(cfg, s) && SentInv(cfg, s) && Enabled(cfg, s, Send(k))
    ensures SentInv(cfg, Apply(cfg, s, Send(k)))
  {
    var t := Apply(cfg, s, Send(k));
    var message := t.queue[|s.queue|];
    assert WorkerLease(cfg, s, k) && Holds(s.workers[k], message.ordinal);
    assert Sent(t) == Sent(s) + [message];
    forall i: nat | s.start <= i < cfg.Count() ensures SentOnce(t, i) {
      assert SentOnce(s, i);
      WorkersAtSet(s.workers, k, t.workers[k], i);
      QueueAtPush(Sent(s), message, i);
    }
  }

  lemma ActionSent(cfg: Config, s: State, a: Action)
    requires ShapeInv(cfg, s) && LeaseInv(cfg, s) && SentInv(cfg, s) && Enabled(cfg, s, a)
    ensures SentInv(cfg, Apply(cfg, s, a))
  {
    hide Apply, Enabled, SentInv, StillSent, ShapeInv, LeaseInv;
    match a
    case Dispatch(k) => DispatchKept(cfg, s, k);
    case Send(k) => SendKept(cfg, s, k);
    case _ =>
      if a.Exit? || a.Check? || a.Wake? || a.GiveUp? || a.LoadOk? || a.LoadFail? {
        WorkerStillSent(cfg, s, a);
      } else {
        CollectorStillSent(cfg, s, a);
      }
      StillSentKept(cfg, s, Apply(cfg, s, a));
  }

  lemma SentKept(cfg: Config, s: State, t: State)
    requires RunInv(cfg, s) && SentInv(cfg, s) && Step(cfg, s, t)
    ensures SentInv(cfg, t)
  {
    var a :| Enabled(cfg, s, a) && t == Apply(cfg, s, a);
    hide Apply, Enabled, SentInv, PlacesInv, BudgetInv, WakeInv, PhaseInv;
    ActionSent(cfg, s, a);
  }

  lemma ReachableSent(cfg: Config, s: State)
    requires ConfigOk(cfg) && Reachable(cfg, s)
    ensures RunInv(cfg, s) && SentInv(cfg, s)
  {
    hide RunInv, DiskInv, SentInv, Step, Start, Resumable;
    ReachableInv(cfg, s);
    var disk: Disk, concurrency: int, limit: int :|
      Resumable(cfg, disk) && ReachedFrom(cfg, disk, concurrency, limit, s);
    var s0 := Start(cfg, disk, concurrency, limit).value;
    StartDisk(cfg, disk, concurrency, limit);
    StartSent(cfg, disk, concurrency, limit);
    var run :| RunTo(cfg, run, s0, s);
    forall u, v | RunInv(cfg, u) && DiskInv(cfg, u) && SentInv(cfg, u) && Step(cfg, u, v)
      ensures RunInv(cfg, v) && DiskInv(cfg, v) && SentInv(cfg, v)
    {
      StepKeeps(cfg, u, v);
      SentKept(cfg, u, v);
    }
    RunKeeps(cfg, run, u => RunInv(cfg, u) && DiskInv(cfg, u) && SentInv(cfg, u), |run| - 1);
  }

  lemma StartSent(cfg: Config, disk: Disk, concurrency: int, limit: int)
    requires ConfigOk(cfg) && Start(cfg, disk, concurrency, limit).Some?
    ensures SentInv(cfg, Start(cfg, disk, concurrency, limit).value)
  {
    var s := Start(cfg, disk, concurrency, limit).value;
    assert Sent(s) == [];
    forall i: nat | s.start <= i < cfg.Count() ensures SentOnce(s, i) {
      WorkersAtBounds(s.workers, i);
      QueueAtBounds(Sent(s), i);
    }
  }

  // Whatever was sent: planned ordinals, none twice, loaded ones with their verified bytes.
  lemma SentIsADelivery(cfg: Config, s: State, j: nat, k: nat)
    requires ConfigOk(cfg) && Reachable(cfg, s) && j < k < |Sent(s)|
    ensures Sent(s)[j].ordinal != Sent(s)[k].ordinal
    ensures MessageOk(cfg, s.start, Sent(s)[j]) && MessageOk(cfg, s.start, Sent(s)[k])
  {
    ReachableSent(cfg, s);
    var i := Sent(s)[j].ordinal;
    assert MessageOk(cfg, s.start, Sent(s)[j]) && SentOnce(s, i);
    WorkersAtBounds(s.workers, i);
    QueueAtBounds(Sent(s), i);
  }

  ghost predicate WasSent(s: State, i: nat) {
    exists k :: 0 <= k < |Sent(s)| && Sent(s)[k].ordinal == i
  }

  // Once the workers are gone, exactly one result was sent for every planned entry.
  lemma EveryResultIsSent(cfg: Config, s: State)
    requires ConfigOk(cfg) && Reachable(cfg, s) && AllExited(s)
    ensures |Sent(s)| == cfg.Count() - s.start
    ensures forall i: nat :: s.start <= i < cfg.Count() ==> WasSent(s, i)
  {
    ReachableSent(cfg, s);
    forall i: nat | s.start <= i < cfg.Count() ensures WasSent(s, i) {
      assert SentOnce(s, i) && s.sent == cfg.Count();
      WorkersAtBounds(s.workers, i);
      QueueAtBounds(Sent(s), i);
    }
    var ordinals := seq(|Sent(s)|, k requires 0 <= k < |Sent(s)| => Sent(s)[k].ordinal);
    forall j, k | 0 <= j < k < |ordinals| ensures ordinals[j] != ordinals[k] {
      SentIsADelivery(cfg, s, j, k);
    }
    forall k | 0 <= k < |ordinals| ensures s.start <= ordinals[k] < cfg.Count() {
      assert MessageOk(cfg, s.start, Sent(s)[k]);
    }
    DistinctInRange(ordinals, s.start, cfg.Count());
    forall i: nat | s.start <= i < cfg.Count() ensures i in ordinals {
      assert WasSent(s, i);
      var k :| 0 <= k < |Sent(s)| && Sent(s)[k].ordinal == i;
      assert ordinals[k] == i;
    }
    CoversRange(ordinals, s.start, cfg.Count());
  }

  // Numbers that cover a range of size n are at least n.
  lemma {:induction false} CoversRange(xs: seq<nat>, lo: nat, hi: nat)
    requires lo <= hi && forall i: nat :: lo <= i < hi ==> i in xs
    ensures |xs| >= hi - lo
    decreases hi - lo
  {
    if lo == hi {
    } else {
      var last: nat := hi - 1;
      assert last in xs;
      var k :| 0 <= k < |xs| && xs[k] == last;
      var rest := xs[..k] + xs[k + 1..];
      forall i: nat | lo <= i < hi - 1 ensures i in rest {
        assert i in xs;
        var j :| 0 <= j < |xs| && xs[j] == i;
        assert if j < k then rest[j] == i else rest[j - 1] == i;
      }
      CoversRange(rest, lo, hi - 1);
    }
  }

  // ---------- As results for Merge ----------

  // The loadResults of these messages, each loaded one with a lease of its own.
  function AsResults(cfg: Config, ms: seq<Message>, leases: seq<BudgetLease>, cause: LoadError): seq<Mergers.LoadResult>
    requires |leases| == |ms| && forall k :: 0 <= k < |ms| ==> ms[k].ordinal < cfg.Count()
  {
    seq(|ms|, k requires 0 <= k < |ms| && ms[k].ordinal < cfg.Count() =>
      match ms[k]
      case Loaded(i, data) =>
        Mergers.Delivered(LoadedSegment(EntryFor(cfg.manifest.segments, i), data, leases[k]))
      case Unloadable(_) => Mergers.Undelivered(cause))
  }

  // What the machine's workers send is what Merge is promised to receive, and
  // when they are gone it is complete unless some load failed.
  lemma MachineFeedsMerge(cfg: Config, s: State, leases: seq<BudgetLease>, cause: LoadError)
    requires ConfigOk(cfg) && Reachable(cfg, s) && |leases| == |Sent(s)|
    requires forall j, k :: 0 <= j < k < |leases| ==> leases[j] != leases[k]
    ensures forall k :: 0 <= k < |Sent(s)| ==> Sent(s)[k].ordinal < cfg.Count()
    ensures var results := AsResults(cfg, Sent(s), leases, cause);
      && Mergers.Delivery(cfg, s.start, results)
      && (AllExited(s) ==>
            && |results| == cfg.Count() - s.start
            && (Mergers.Complete(cfg, s.start, results) <==> forall k :: 0 <= k < |Sent(s)| ==> Sent(s)[k].Loaded?))
  {
    ReachableSent(cfg, s);
    var results := AsResults(cfg, Sent(s), leases, cause);
    forall j, k | 0 <= j < k < |results| ensures Sent(s)[j].ordinal != Sent(s)[k].ordinal {
      SentIsADelivery(cfg, s, j, k);
    }
    forall k | 0 <= k < |results| && results[k].Delivered?
      ensures Mergers.DeliveredOk(cfg, s.start, results[k].segment)
    {
      assert MessageOk(cfg, s.start, Sent(s)[k]);
    }
    if AllExited(s) {
      EveryResultIsSent(cfg, s);
      CompleteWhenLoaded(cfg, s, results);
    }
  }

  lemma CompleteWhenLoaded(cfg: Config, s: State, results: seq<Mergers.LoadResult>)
    requires |results| == |Sent(s)|
    requires forall k :: 0 <= k < |results| ==>
      && (results[k].Delivered? <==> Sent(s)[k].Loaded?)
      && (results[k].Delivered? ==> results[k].segment.entry.ordinal == Sent(s)[k].ordinal)
    requires forall i: nat :: s.start <= i < cfg.Count() ==> WasSent(s, i)
    ensures Mergers.Complete(cfg, s.start, results) <==> forall k :: 0 <= k < |Sent(s)| ==> Sent(s)[k].Loaded?
  {
    if forall k :: 0 <= k < |Sent(s)| ==> Sent(s)[k].Loaded? {
      forall o: nat | s.start <= o < cfg.Count() ensures Mergers.OrdinalArrived(results, |results|, o) {
        assert WasSent(s, o);
        var k :| 0 <= k < |Sent(s)| && Sent(s)[k].ordinal == o;
        assert results[k].Delivered? && results[k].segment.entry.ordinal == o;
      }
    }
  }

  // What an object-model merge of at least one segment leaves when indexing or
  // clearing failed is a stranded file, and then no run ever starts.
  lemma LateFailuresStrand(
    cfg: Config, before: Disk, after: Disk, session: string,
    r: Result<Mergers.MergeResult, Mergers.MergeError>, concurrency: int, limit: int)
    requires ConfigOk(cfg) && cfg.Count() > 0 && Mergers.Ends(cfg, before, after, session, r)
    requires r.Failure? && (r.error.IndexFailure? || r.error.ClearFailure?)
    ensures Stranded(cfg, after) && Published(cfg, after)
    ensures Start(cfg, after, concurrency, limit).None?
  {
    assert after.checkpoints[cfg.FileID()] == Mergers.CheckpointAt(cfg.manifest, session, cfg.Count());
    StrandedNeverStarts(cfg, after, concurrency, limit);
  }
}
