// When a merge can stop for ever, exactly. Loaded segments keep their bytes
// while they wait in `pending`, so segments that overtake the next one can fill
// the budget and shut it out.
module MergeDeadlock {
  import opened Sums
  import opened MergeMachine
  import opened MergeInvariant
  import opened MergeOutput
  import opened MergeProgress

  // ---------- The condition ----------

  ghost function ParkedMarks(cfg: Config, parked: set<nat>): seq<int> {
    seq(cfg.Count(), j requires 0 <= j < cfg.Count() => if j in parked then cfg.Weight(j) else 0)
  }

  // Bytes reserved once all of `parked` are loaded and none is written.
  ghost function ParkedBytes(cfg: Config, parked: set<nat>): int {
    Sum(ParkedMarks(cfg, parked))
  }

  // How many ordinals strictly between i and m are not parked.
  ghost function Skipped(i: nat, m: nat, parked: set<nat>): nat {
    if m <= i + 1 then 0 else Skipped(i, m - 1, parked) + One(m - 1 !in parked)
  }

  // Some ordinals between i and m fit the budget together but leave no room
  // for i, and besides the workers stuck on i and on the skipped ordinals one
  // more worker is there to load them.
  ghost predicate BlockedAt(
    cfg: Config, start: nat, crew: nat, limit: int, i: nat, m: nat, parked: set<nat>)
  {
    && start <= i < m <= cfg.Count()
    && (forall j :: j in parked ==> i < j < m)
    && Skipped(i, m, parked) + 2 <= crew
    && ParkedBytes(cfg, parked) <= limit
    && ParkedBytes(cfg, parked) + cfg.Weight(i) > limit
  }

  ghost predicate Blockable(cfg: Config, start: nat, crew: nat, limit: int) {
    exists i: nat, m: nat, parked: set<nat> :: BlockedAt(cfg, start, crew, limit, i, m, parked)
  }

  // ---------- Jobs are taken in order ----------

  predicate NotBefore(w: Worker, p: nat) {
    match w
    case Checking(j) => j >= p
    case Waiting(j, _) => j >= p
    case Holding(j) => j >= p
    case Marked(j, _) => j >= p
    case Failing(j) => j >= p
    case _ => true
  }

  ghost predicate SomeoneFree(workers: seq<Worker>, p: nat) {
    exists k :: 0 <= k < |workers| && NotBefore(workers[k], p)
  }

  // Whoever took ordinal p has nothing older to do.
  ghost predicate OrderInv(s: State) {
    forall p: nat :: s.start <= p < s.sent ==> SomeoneFree(s.workers, p)
  }

  lemma WorkerJobEffect(cfg: Config, s: State, a: Action, p: nat)
    requires Enabled(cfg, s, a) && WorkerStep(a)
    ensures var t := Apply(cfg, s, a);
      && (NotBefore(s.workers[a.worker], p) && p <= s.sent ==> NotBefore(t.workers[a.worker], p))
      && t.sent == (if a.Dispatch? then s.sent + 1 else s.sent)
      && (a.Dispatch? ==> t.workers[a.worker] == Checking(s.sent))
  {
  }

  lemma OrderKept(cfg: Config, s: State, a: Action)
    requires RunInv(cfg, s) && OrderInv(s) && Enabled(cfg, s, a)
    ensures OrderInv(Apply(cfg, s, a))
  {
    var t := Apply(cfg, s, a);
    if WorkerStep(a) {
      WorkerEffect(cfg, s, a);
      WorkerJobEffect(cfg, s, a, 0);
      forall p: nat | t.start <= p < t.sent ensures SomeoneFree(t.workers, p) {
        WorkerJobEffect(cfg, s, a, p);
        if p < s.sent {
          assert SomeoneFree(s.workers, p);
          var k :| 0 <= k < |s.workers| && NotBefore(s.workers[k], p);
          assert NotBefore(t.workers[k], p);
        } else {
          assert NotBefore(t.workers[a.worker], p);
        }
      }
    } else {
      CollectorUsesWork(cfg, s, a);
    }
  }

  // ---------- Only a blockable run gets stuck ----------

  lemma {:induction false} Largest(xs: set<nat>) returns (x: nat)
    requires xs != {}
    ensures x in xs && forall y :: y in xs ==> y <= x
    decreases |xs|
  {
    x :| x in xs;
    assert forall y :: y in xs ==> y == x || y in xs - {x};
    if xs - {x} == {} {
    } else {
      var y := Largest(xs - {x});
      if y > x {
        x := y;
      }
    }
  }

  // As many workers as there are ordinals to hold.
  lemma {:induction false} HoldersSuffice(workers: seq<Worker>, held: set<nat>, by': set<nat>)
    requires forall j :: j in held ==> exists k :: k in by' && k < |workers| && Holds(workers[k], j)
    ensures |held| <= |by'|
    decreases |held|
  {
    if held == {} {
    } else {
      var j :| j in held;
      var k :| k in by' && k < |workers| && Holds(workers[k], j);
      forall i | i in held - {j}
        ensures exists l :: l in by' - {k} && l < |workers| && Holds(workers[l], i)
      {
        var l :| l in by' && l < |workers| && Holds(workers[l], i);
        assert l in by' - {k};
      }
      HoldersSuffice(workers, held - {j}, by' - {k});
    }
  }

  ghost function Below(n: nat): (r: set<nat>)
    ensures |r| == n
    ensures forall k: nat :: k in r <==> k < n
  {
    if n == 0 then {} else Below(n - 1) + {n - 1}
  }

  ghost function NotParked(i: nat, m: nat, parked: set<nat>): set<nat> {
    set j: nat | i <= j < m && j !in parked
  }

  lemma {:induction false} NotParkedSize(i: nat, m: nat, parked: set<nat>)
    requires i < m && i !in parked
    ensures |NotParked(i, m, parked)| == Skipped(i, m, parked) + 1
  {
    if m == i + 1 {
      assert NotParked(i, m, parked) == {i};
    } else {
      NotParkedSize(i, m - 1, parked);
      assert NotParked(i, m, parked) ==
        NotParked(i, m - 1, parked) + (if m - 1 in parked then {} else {m - 1});
    }
  }

  lemma StuckLease(cfg: Config, s: State, j: nat)
    requires ConfigOk(cfg) && RunInv(cfg, s) && DiskInv(cfg, s) && Stuck(cfg, s) && j < cfg.Count()
    ensures s.leases[j].Held? <==> j in s.pending
  {
    StuckShape(cfg, s);
    WorkersAtBounds(s.workers, j);
    QueueAtBounds(s.queue, j);
    forall k | 0 <= k < |s.workers| && Holds(s.workers[k], j) ensures s.leases[j] == Fresh {
      assert WorkerLease(cfg, s, k);
    }
    assert s.leases[j].Held? ==> HeldSomewhere(cfg, s, j);
    assert j in s.pending ==> PendingLease(cfg, s, j);
  }

  // In a stuck state the outstanding bytes are those of `pending`.
  lemma StuckBytes(cfg: Config, s: State)
    requires ConfigOk(cfg) && RunInv(cfg, s) && DiskInv(cfg, s) && Stuck(cfg, s)
    ensures s.budget.reserved == ParkedBytes(cfg, s.pending.Keys)
  {
    forall j | 0 <= j < cfg.Count() ensures s.leases[j].Held? <==> j in s.pending {
      StuckLease(cfg, s, j);
    }
    assert ReservedMarks(cfg, s.leases) == ParkedMarks(cfg, s.pending.Keys);
  }

  // Every ordinal of a stuck run from `next` on that was handed out and has not
  // come back is with a sleeping worker; the next one is among them.
  lemma StuckHolders(cfg: Config, s: State, j: nat)
    requires ConfigOk(cfg) && RunInv(cfg, s) && DiskInv(cfg, s) && Stuck(cfg, s)
    requires s.next <= j < s.sent && j !in s.pending
    ensures exists k :: 0 <= k < |s.workers| && Holds(s.workers[k], j) && Asleep(cfg, s, k)
  {
    StuckShape(cfg, s);
    assert Places(s, j) == 1;
    WorkersAtBounds(s.workers, j);
    QueueAtBounds(s.queue, j);
  }

  lemma StuckNext(cfg: Config, s: State)
    requires ConfigOk(cfg) && RunInv(cfg, s) && DiskInv(cfg, s) && Stuck(cfg, s)
    ensures s.next < s.sent && s.next !in s.pending
    ensures s.budget.reserved + cfg.Weight(s.next) > s.budget.limit >= cfg.Weight(s.next)
  {
    StuckShape(cfg, s);
    var k :| 0 <= k < |s.workers| && !s.workers[k].Exited?;
    assert Holds(s.workers[k], s.workers[k].job);
    WorkerAlone(cfg, s, k, s.workers[k].job);
    StuckHolders(cfg, s, s.next);
  }

  // A worker that is past `last` holds none of these.
  lemma OneHolderFewer(workers: seq<Worker>, held: set<nat>, last: nat)
    requires SomeoneFree(workers, last)
    requires forall k :: 0 <= k < |workers| ==> !Holds(workers[k], last)
    requires forall j :: j in held ==> j <= last && exists k :: 0 <= k < |workers| && Holds(workers[k], j)
    ensures |held| <= |workers| - 1
  {
    var k0 :| 0 <= k0 < |workers| && NotBefore(workers[k0], last);
    var rest := Below(|workers|) - {k0};
    forall j | j in held ensures exists k :: k in rest && k < |workers| && Holds(workers[k], j) {
      var k :| 0 <= k < |workers| && Holds(workers[k], j);
      assert k in rest;
    }
    HoldersSuffice(workers, held, rest);
  }

  lemma StuckPendingRange(cfg: Config, s: State)
    requires ConfigOk(cfg) && RunInv(cfg, s) && DiskInv(cfg, s) && Stuck(cfg, s)
    ensures forall j :: j in s.pending ==> s.next < j < s.sent
  {
    CollectorStuckShape(cfg, s);
    StuckShape(cfg, s);
  }

  lemma StuckHasPending(cfg: Config, s: State)
    requires ConfigOk(cfg) && RunInv(cfg, s) && DiskInv(cfg, s) && Stuck(cfg, s)
    ensures s.pending.Keys != {}
  {
    StuckBytes(cfg, s);
    StuckNext(cfg, s);
    if s.pending.Keys == {} {
      SumZeros(ParkedMarks(cfg, s.pending.Keys));
    }
  }

  // The traffic jam: loaded segments fill the budget, everybody else waits.
  ghost predicate Jam(cfg: Config, s: State) {
    && s.start <= s.next < s.sent <= cfg.Count() && s.next !in s.pending
    && s.pending.Keys != {} && (forall j :: j in s.pending.Keys ==> s.next < j < s.sent)
    && s.budget.reserved == ParkedBytes(cfg, s.pending.Keys)
    && s.budget.reserved <= s.budget.limit < s.budget.reserved + cfg.Weight(s.next)
    && (forall j :: s.next <= j < s.sent && j !in s.pending ==> HasHolder(s, j))
    && (forall j, k :: j in s.pending.Keys && 0 <= k < |s.workers| ==> !Holds(s.workers[k], j))
    && OrderInv(s)
  }

  ghost predicate HasHolder(s: State, j: nat) {
    exists k :: 0 <= k < |s.workers| && Holds(s.workers[k], j)
  }

  lemma StuckIsJam(cfg: Config, s: State)
    requires ConfigOk(cfg) && RunInv(cfg, s) && DiskInv(cfg, s) && OrderInv(s) && Stuck(cfg, s)
    ensures Jam(cfg, s)
  {
    StuckHasPending(cfg, s);
    StuckPendingRange(cfg, s);
    StuckBytes(cfg, s);
    StuckNext(cfg, s);
    forall j | s.next <= j < s.sent && j !in s.pending ensures HasHolder(s, j) {
      StuckHolders(cfg, s, j);
    }
    forall j, k | j in s.pending.Keys && 0 <= k < |s.workers| ensures !Holds(s.workers[k], j) {
      PendingAlone(cfg, s, j);
    }
  }

  lemma JamIsBlockable(cfg: Config, s: State)
    requires Jam(cfg, s)
    ensures Blockable(cfg, s.start, |s.workers|, s.budget.limit)
  {
    var parked := s.pending.Keys;
    var last := Largest(parked);
    var held := NotParked(s.next, last + 1, parked);
    assert SomeoneFree(s.workers, last);
    forall j | j in held ensures j <= last && exists k :: 0 <= k < |s.workers| && Holds(s.workers[k], j) {
      assert HasHolder(s, j);
    }
    OneHolderFewer(s.workers, held, last);
    NotParkedSize(s.next, last + 1, parked);
    assert BlockedAt(cfg, s.start, |s.workers|, s.budget.limit, s.next, last + 1, parked);
  }
}
