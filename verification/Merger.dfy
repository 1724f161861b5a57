// Merger.Merge as the code runs it: one goroutine, local variables, maps and
// sessions updated in place. The order in which results arrive is arbitrary.
module Mergers {
  import opened Prelude
  import opened Manifests
  import opened Budgets
  import opened Writers
  import opened Loading
  import opened MergeMachine
  import opened MergeInvariant
  import opened MergeOutput

  // loadResult, in the order the channel yields them
  datatype LoadResult = Delivered(segment: LoadedSegment) | Undelivered(error: LoadError)

  datatype MergeError =
    | ContextExpired
    | PlanRefused(cause: PlanError)
    | SessionRefused
    | LoadFailure(problem: LoadError)
    | WriteFailure(segmentID: string)
    | SaveFailure
    | IncompleteResults
    | CommitFailure
    | IndexFailure
    | ClearFailure

  datatype MergeResult = MergeResult(receipt: CommitReceipt, segmentCount: nat, resumed: bool)

  function LeasesOf(results: seq<LoadResult>): set<BudgetLease> {
    set k | 0 <= k < |results| && results[k].Delivered? :: results[k].segment.lease
  }

  function PendingLeases(pending: map<nat, LoadedSegment>): set<BudgetLease> {
    set i | i in pending :: pending[i].lease
  }

  lemma LeasesOfPrefix(results: seq<LoadResult>, i: nat)
    requires i < |results|
    ensures LeasesOf(results[..i + 1]) ==
      LeasesOf(results[..i]) + (if results[i].Delivered? then {results[i].segment.lease} else {})
  {
    var longer, shorter := results[..i + 1], results[..i];
    forall lease | lease in LeasesOf(longer)
      ensures lease in LeasesOf(shorter) + (if results[i].Delivered? then {results[i].segment.lease} else {})
    {
      var k :| 0 <= k < |longer| && longer[k].Delivered? && longer[k].segment.lease == lease;
      assert k < i ==> shorter[k].Delivered? && shorter[k].segment.lease == lease;
    }
    forall lease | lease in LeasesOf(shorter) ensures lease in LeasesOf(longer) {
      var k :| 0 <= k < |shorter| && shorter[k].Delivered? && shorter[k].segment.lease == lease;
      assert longer[k].Delivered? && longer[k].segment.lease == lease;
    }
    assert results[i].Delivered? ==> longer[i].segment.lease in LeasesOf(longer);
  }

  // What the load workers may deliver for a plan from `start` on: verified
  // bytes of planned ordinals, none twice, each with a lease of its own.
  ghost predicate Delivery(cfg: Config, start: nat, results: seq<LoadResult>) {
    && (forall k :: 0 <= k < |results| && results[k].Delivered? ==> DeliveredOk(cfg, start, results[k].segment))
    && (forall j, k :: 0 <= j < k < |results| && results[j].Delivered? && results[k].Delivered? ==>
          && results[j].segment.entry.ordinal != results[k].segment.entry.ordinal
          && results[j].segment.lease != results[k].segment.lease)
  }

  ghost predicate DeliveredOk(cfg: Config, start: nat, segment: LoadedSegment) {
    var i := segment.entry.ordinal;
    && start <= i < cfg.Count() && segment.entry == EntryFor(cfg.manifest.segments, i)
    && cfg.Data(i) == Result.Success(segment.data)
  }

  // ---------- What the collector knows after i results ----------

  ghost predicate Arrived(results: seq<LoadResult>, i: nat, segment: LoadedSegment) {
    exists k :: 0 <= k < i && k < |results| && results[k] == Delivered(segment)
  }

  ghost predicate OrdinalArrived(results: seq<LoadResult>, i: nat, o: nat) {
    exists k :: 0 <= k < i && k < |results| && results[k].Delivered? && results[k].segment.entry.ordinal == o
  }

  // `pending` holds exactly the arrived segments that are not written yet.
  ghost predicate PendingOk(
    start: nat, results: seq<LoadResult>, i: nat, pending: map<nat, LoadedSegment>, next: nat)
  {
    && i <= |results| && start <= next
    && (forall o: nat :: start <= o < next ==> OrdinalArrived(results, i, o))
    && (forall o :: o in pending ==> next <= o == pending[o].entry.ordinal && Arrived(results, i, pending[o]))
    && (forall k :: 0 <= k < i ==>
          results[k].Delivered? && (results[k].segment.entry.ordinal < next
                                    || results[k].segment.entry.ordinal in pending))
  }

  // Every lease that arrived is either given back or still in `pending`.
  ghost predicate LeasesTraced(
    results: seq<LoadResult>, i: nat, pending: map<nat, LoadedSegment>, freed: set<BudgetLease>)
  {
    && i <= |results| && freed <= LeasesOf(results) && PendingLeases(pending) <= LeasesOf(results)
    && forall k :: 0 <= k < i && results[k].Delivered? ==>
         results[k].segment.lease in freed + PendingLeases(pending)
  }

  lemma TracedLeasesCover(
    results: seq<LoadResult>, i: nat, pending: map<nat, LoadedSegment>, freed: set<BudgetLease>)
    requires LeasesTraced(results, i, pending, freed)
    ensures LeasesOf(results) == freed + PendingLeases(pending) + LeasesOf(results[i..])
  {
    var rest := results[i..];
    forall lease | lease in LeasesOf(results)
      ensures lease in freed + PendingLeases(pending) + LeasesOf(rest)
    {
      var k :| 0 <= k < |results| && results[k].Delivered? && results[k].segment.lease == lease;
      assert k >= i ==> rest[k - i].Delivered? && rest[k - i].segment.lease == lease;
    }
    forall lease | lease in LeasesOf(rest) ensures lease in LeasesOf(results) {
      var k :| 0 <= k < |rest| && rest[k].Delivered? && rest[k].segment.lease == lease;
      assert results[i + k].Delivered? && results[i + k].segment.lease == lease;
    }
  }

  lemma ArrivedIsDelivered(cfg: Config, start: nat, results: seq<LoadResult>, i: nat, segment: LoadedSegment)
    requires Delivery(cfg, start, results) && Arrived(results, i, segment)
    ensures DeliveredOk(cfg, start, segment) && segment.lease in LeasesOf(results)
  {
    var k :| 0 <= k < i && k < |results| && results[k] == Delivered(segment);
    assert results[k].Delivered? && results[k].segment.lease in LeasesOf(results);
  }

  // A new arrival is neither written nor pending yet.
  lemma ArrivalIsNew(
    cfg: Config, start: nat, results: seq<LoadResult>, i: nat, pending: map<nat, LoadedSegment>, next: nat)
    requires Delivery(cfg, start, results) && i < |results| && results[i].Delivered?
    requires PendingOk(start, results, i, pending, next)
    ensures results[i].segment.entry.ordinal >= next && results[i].segment.entry.ordinal !in pending
  {
    var o := results[i].segment.entry.ordinal;
    assert DeliveredOk(cfg, start, results[i].segment);
    assert o < next ==> OrdinalArrived(results, i, o);
    assert o in pending ==> Arrived(results, i, pending[o]);
  }

  // pending[ordinal] = loaded
  lemma ArrivalKept(
    start: nat, results: seq<LoadResult>, i: nat, pending: map<nat, LoadedSegment>, next: nat)
    requires i < |results| && results[i].Delivered? && PendingOk(start, results, i, pending, next)
    requires results[i].segment.entry.ordinal >= next && results[i].segment.entry.ordinal !in pending
    ensures var segment := results[i].segment;
      PendingOk(start, results, i + 1, pending[segment.entry.ordinal := segment], next)
  {
    var segment := results[i].segment;
    var after := pending[segment.entry.ordinal := segment];
    assert Arrived(results, i + 1, segment);
    forall o | o in after ensures next <= o == after[o].entry.ordinal && Arrived(results, i + 1, after[o]) {
      assert o != segment.entry.ordinal ==> o in pending && Arrived(results, i, pending[o]);
    }
    var j := i + 1;
    forall o: nat | start <= o < next ensures OrdinalArrived(results, j, o) {
      assert OrdinalArrived(results, i, o);
    }
    forall k | 0 <= k < i + 1
      ensures results[k].Delivered?
        && (results[k].segment.entry.ordinal < next || results[k].segment.entry.ordinal in after)
    {
      assert k < i || results[k].segment.entry.ordinal in after;
    }
  }

  lemma ArrivalLeasesKept(
    results: seq<LoadResult>, i: nat, pending: map<nat, LoadedSegment>, freed: set<BudgetLease>)
    requires i < |results| && results[i].Delivered? && LeasesTraced(results, i, pending, freed)
    requires results[i].segment.entry.ordinal !in pending
    ensures var segment := results[i].segment;
      LeasesTraced(results, i + 1, pending[segment.entry.ordinal := segment], freed)
  {
    var segment := results[i].segment;
    var o0 := segment.entry.ordinal;
    var after := pending[o0 := segment];
    forall lease | lease in PendingLeases(pending) ensures lease in PendingLeases(after) {
      var o :| o in pending && pending[o].lease == lease;
      assert o in after && after[o].lease == lease;
    }
    forall lease | lease in PendingLeases(after) ensures lease in LeasesOf(results) {
      var o :| o in after && after[o].lease == lease;
      assert o != o0 ==> o in pending && pending[o].lease in PendingLeases(pending);
    }
    assert o0 in after && after[o0].lease == segment.lease;
  }

  // next++, release, delete(pending, next)
  lemma WriteKept(
    start: nat, results: seq<LoadResult>, i: nat, pending: map<nat, LoadedSegment>, next: nat,
    freed: set<BudgetLease>)
    requires PendingOk(start, results, i, pending, next) && LeasesTraced(results, i, pending, freed)
    requires next in pending
    ensures pending[next].entry.ordinal == next && Arrived(results, i, pending[next])
    ensures PendingOk(start, results, i, pending - {next}, next + 1)
    ensures LeasesTraced(results, i, pending - {next}, freed + {pending[next].lease})
    ensures LeasesTraced(results, i, pending, freed + {pending[next].lease})
  {
    var after := pending - {next};
    assert pending[next].lease in PendingLeases(pending);
    assert Arrived(results, i, pending[next]);
    assert OrdinalArrived(results, i, next);
    forall lease | lease in PendingLeases(pending)
      ensures lease in freed + {pending[next].lease} + PendingLeases(after)
    {
      var o :| o in pending && pending[o].lease == lease;
      assert o != next ==> o in after && after[o].lease == lease;
    }
    forall lease | lease in PendingLeases(after) ensures lease in PendingLeases(pending) {
      var o :| o in after && after[o].lease == lease;
      assert o in pending && pending[o].lease == lease;
    }
  }

  // An error message carries no lease.
  lemma UndeliveredTraced(
    results: seq<LoadResult>, i: nat, pending: map<nat, LoadedSegment>, freed: set<BudgetLease>)
    requires i < |results| && !results[i].Delivered? && LeasesTraced(results, i, pending, freed)
    ensures LeasesTraced(results, i + 1, pending, freed)
  {
  }

  lemma NothingArrived(cfg: Config, start: nat, results: seq<LoadResult>)
    requires Delivery(cfg, start, results)
    ensures Tracked(cfg, start, results, 0, map[], start, {}, LeasesOf(results))
  {
  }

  lemma Arrival(
    cfg: Config, start: nat, results: seq<LoadResult>, i: nat, pending: map<nat, LoadedSegment>, next: nat,
    freed: set<BudgetLease>)
    requires i < |results| && results[i].Delivered?
    requires Tracked(cfg, start, results, i, pending, next, freed, LeasesOf(results))
    ensures var segment := results[i].segment;
      && Tracked(cfg, start, results, i + 1, pending[segment.entry.ordinal := segment], next, freed, LeasesOf(results))
      && |pending[segment.entry.ordinal := segment]| == |pending| + 1
  {
    ArrivalIsNew(cfg, start, results, i, pending, next);
    ArrivalKept(start, results, i, pending, next);
    ArrivalLeasesKept(results, i, pending, freed);
    OneMore(pending, results[i].segment.entry.ordinal, results[i].segment);
  }

  ghost predicate Tracked(
    cfg: Config, start: nat, results: seq<LoadResult>, i: nat, pending: map<nat, LoadedSegment>, next: nat,
    freed: set<BudgetLease>, leases: set<BudgetLease>)
  {
    && Delivery(cfg, start, results) && leases == LeasesOf(results)
    && PendingOk(start, results, i, pending, next) && LeasesTraced(results, i, pending, freed)
  }

  // The context had expired at one of these questions.
  ghost predicate Refused(ctx: nat -> bool, from: nat, to: nat) {
    exists k :: from <= k < to && ctx(k)
  }

  // The writer stages a draft that is right up to ordinal `next`.
  ghost predicate DraftAt(cfg: Config, w: WriterState, session: string, next: nat) {
    && ConfigOk(cfg) && next <= cfg.Count()
    && session in w.drafts && DraftOk(cfg, w.drafts[session], next)
  }

  lemma DeliveredFits(cfg: Config, start: nat, loaded: LoadedSegment)
    requires DeliveredOk(cfg, start, loaded)
    ensures loaded.entry.ordinal < cfg.Count()
    ensures loaded.entry.segment == cfg.manifest.segments[loaded.entry.ordinal]
    ensures |loaded.data| == loaded.entry.segment.Weight()
  {
  }

  lemma DraftAdvances(cfg: Config, start: nat, w: WriterState, session: string, loaded: LoadedSegment)
    requires DeliveredOk(cfg, start, loaded) && DraftAt(cfg, w, session, loaded.entry.ordinal)
    ensures AppendFits(w, session, loaded.entry.segment.Begin(), loaded.data)
    ensures DraftAt(
      cfg, Writers.Appended(w, session, loaded.entry.segment.Begin(), loaded.data), session, loaded.entry.ordinal + 1)
  {
    MergedExtends(cfg, w.drafts[session].data, loaded.entry.ordinal);
  }

  // Between these two states only the session's own draft was written.
  ghost predicate Aside(w: WriterState, v: WriterState, session: string) {
    && v == w.(drafts := v.drafts) && v.drafts.Keys == w.drafts.Keys
    && v.drafts - {session} == w.drafts - {session}
  }

  lemma AsideReflexive(w: WriterState, session: string)
    ensures Aside(w, w, session)
  {
  }

  lemma AsideTransitive(u: WriterState, v: WriterState, w: WriterState, session: string)
    requires Aside(u, v, session) && Aside(v, w, session)
    ensures Aside(u, w, session)
  {
  }

  lemma OneFewer<V>(m: map<nat, V>, k: nat)
    requires k in m
    ensures |m - {k}| == |m| - 1
  {
    assert m.Keys == (m - {k}).Keys + {k};
    assert |m.Keys| == |m| && |(m - {k}).Keys| == |m - {k}|;
  }

  lemma OneMore<V>(m: map<nat, V>, k: nat, v: V)
    requires k !in m
    ensures |m[k := v]| == |m| + 1
  {
    assert m[k := v].Keys == m.Keys + {k};
    assert |m.Keys| == |m| && |m[k := v].Keys| == |m[k := v]|;
  }

  lemma RefusedOver(ctx: nat -> bool, from: nat, middle: nat, to: nat)
    requires from <= middle <= to
    ensures Refused(ctx, from, to) <==> Refused(ctx, from, middle) || Refused(ctx, middle, to)
  {
  }

  lemma RefusedOnce(ctx: nat -> bool, k: nat)
    ensures Refused(ctx, k, k + 1) <==> ctx(k)
    ensures Refused(ctx, k, k + 2) <==> ctx(k) || ctx(k + 1)
    ensures !Refused(ctx, k, k)
  {
  }

  lemma RefusedMore(ctx: nat -> bool, from: nat, middle: nat, to: nat)
    requires from <= middle <= to && !Refused(ctx, from, middle)
    ensures Refused(ctx, from, to) <==> Refused(ctx, middle, to)
  {
    RefusedOver(ctx, from, middle, to);
  }

  lemma NextInTurn(start: nat, results: seq<LoadResult>, i: nat, pending: map<nat, LoadedSegment>, next: nat)
    requires PendingOk(start, results, i, pending, next) && next in pending
    ensures InTurn(start, results, i, next + 1)
  {
    assert Arrived(results, i, pending[next]);
  }

  lemma NextHasNotArrived(
    start: nat, results: seq<LoadResult>, i: nat, pending: map<nat, LoadedSegment>, next: nat)
    requires PendingOk(start, results, i, pending, next) && next !in pending
    ensures !OrdinalArrived(results, i, next)
  {
  }

  // ---------- Why a merge fails ----------

  // The question with this number is the first to meet an expired context.
  ghost predicate FirstRefusal(ctx: nat -> bool, first: nat, question: nat) {
    first <= question && !Refused(ctx, first, question) && ctx(question)
  }

  // The first i results are loaded segments, and no more are looked at: the
  // next one is an error, or there is none.
  ghost predicate Halt(results: seq<LoadResult>, i: nat) {
    && i <= |results| && (forall k :: 0 <= k < i ==> results[k].Delivered?)
    && (i < |results| ==> results[i].Undelivered?)
  }

  // The first ordinal that is not among the first i results.
  ghost predicate Frontier(start: nat, results: seq<LoadResult>, i: nat, n: nat) {
    start <= n && InTurn(start, results, i, n) && !OrdinalArrived(results, i, n)
  }

  ghost predicate InTurn(start: nat, results: seq<LoadResult>, i: nat, n: nat) {
    forall o: nat :: start <= o < n ==> OrdinalArrived(results, i, o)
  }

  // The writing of ordinal m, or the saving after it, is the first to be
  // refused; from `start` on each ordinal before it asked twice.
  ghost predicate StoppedAt(cfg: Config, ctx: nat -> bool, first: nat, start: nat, m: nat, e: MergeError) {
    && start <= m < cfg.Count()
    && var question := first + 2 * (m - start);
       || (e == WriteFailure(cfg.manifest.segments[m].id) && FirstRefusal(ctx, first, question))
       || (e == SaveFailure && FirstRefusal(ctx, first, question + 1))
  }

  // Commit, index and clearing ask once each.
  ghost predicate EndsLate(ctx: nat -> bool, first: nat, question: nat, e: MergeError) {
    || (e == CommitFailure && FirstRefusal(ctx, first, question))
    || (e == IndexFailure && FirstRefusal(ctx, first, question + 1))
    || (e == ClearFailure && FirstRefusal(ctx, first, question + 2))
  }

  // Everything that was in turn is written; what then ends the merge is the
  // error message, the missing ordinal or one of the last three steps.
  ghost predicate EndsAfter(
    cfg: Config, ctx: nat -> bool, first: nat, start: nat, results: seq<LoadResult>, i: nat, n: nat, e: MergeError)
    requires i <= |results| && start <= n
  {
    var question := first + 2 * (n - start);
    if i < |results| then
      results[i].Undelivered? && e == LoadFailure(results[i].error) && !Refused(ctx, first, question)
    else if n != cfg.Count() then e == IncompleteResults && !Refused(ctx, first, question)
    else EndsLate(ctx, first, question, e)
  }

  // Why a merge that loads from `start` on, and whose first question is number
  // `first`, returns this error: said of the results and the context alone.
  ghost predicate Because(
    cfg: Config, ctx: nat -> bool, first: nat, start: nat, results: seq<LoadResult>, e: MergeError)
  {
    exists i: nat, n: nat :: BecauseAt(cfg, ctx, first, start, results, i, n, e)
  }

  ghost predicate BecauseAt(
    cfg: Config, ctx: nat -> bool, first: nat, start: nat, results: seq<LoadResult>, i: nat, n: nat, e: MergeError)
  {
    && Halt(results, i) && Frontier(start, results, i, n)
    && (|| (exists m: nat :: m < n && StoppedAt(cfg, ctx, first, start, m, e))
        || EndsAfter(cfg, ctx, first, start, results, i, n, e))
  }

  lemma OneHalt(results: seq<LoadResult>, i: nat, j: nat)
    requires Halt(results, i) && Halt(results, j)
    ensures i == j
  {
  }

  lemma OneFrontier(start: nat, results: seq<LoadResult>, i: nat, m: nat, n: nat)
    requires Frontier(start, results, i, m) && Frontier(start, results, i, n)
    ensures m == n
  {
  }

  // Two first refusals are the same one, and nothing before it was refused.
  lemma OneRefusal(ctx: nat -> bool, first: nat, question: nat)
    requires FirstRefusal(ctx, first, question)
    ensures forall q: nat :: FirstRefusal(ctx, first, q) ==> q == question
    ensures forall q: nat :: q > question ==> Refused(ctx, first, q)
  {
  }

  // A merge has at most one reason to fail.
  lemma OneReason(
    cfg: Config, ctx: nat -> bool, first: nat, start: nat, results: seq<LoadResult>, e: MergeError, d: MergeError)
    requires Because(cfg, ctx, first, start, results, e) && Because(cfg, ctx, first, start, results, d)
    ensures e == d
  {
    hide Halt, Frontier, FirstRefusal, StoppedAt, EndsAfter;
    var i: nat, n: nat :| BecauseAt(cfg, ctx, first, start, results, i, n, e);
    var j: nat, l: nat :| BecauseAt(cfg, ctx, first, start, results, j, l, d);
    OneHalt(results, i, j);
    OneFrontier(start, results, i, n, l);
    HaltFits(start, results, i, n);
    StoppedFirst(cfg, ctx, first, start, results, i, n, e, d);
    StoppedFirst(cfg, ctx, first, start, results, i, n, d, e);
    if EndsAfter(cfg, ctx, first, start, results, i, n, e) && EndsAfter(cfg, ctx, first, start, results, i, n, d) {
      OneEnd(cfg, ctx, first, start, results, i, n, e, d);
    }
  }

  lemma HaltFits(start: nat, results: seq<LoadResult>, i: nat, n: nat)
    requires Halt(results, i) && Frontier(start, results, i, n)
    ensures i <= |results| && start <= n
  {
  }

  // A step that was refused leaves no other reason.
  lemma StoppedFirst(
    cfg: Config, ctx: nat -> bool, first: nat, start: nat, results: seq<LoadResult>, i: nat, n: nat, e: MergeError,
    d: MergeError)
    requires i <= |results| && start <= n
    ensures (exists m: nat :: m < n && StoppedAt(cfg, ctx, first, start, m, e)) ==>
      && ((exists m: nat :: m < n && StoppedAt(cfg, ctx, first, start, m, d)) ==> d == e)
      && !EndsAfter(cfg, ctx, first, start, results, i, n, d)
  {
    if m: nat :| m < n && StoppedAt(cfg, ctx, first, start, m, e) {
      var question := first + 2 * (m - start) + if e == SaveFailure then 1 else 0;
      OneRefusal(ctx, first, question);
      hide Refused, FirstRefusal;
    }
  }

  lemma OneEnd(
    cfg: Config, ctx: nat -> bool, first: nat, start: nat, results: seq<LoadResult>, i: nat, n: nat, e: MergeError,
    d: MergeError)
    requires i <= |results| && start <= n
    requires EndsAfter(cfg, ctx, first, start, results, i, n, e) && EndsAfter(cfg, ctx, first, start, results, i, n, d)
    ensures e == d
  {
    var question := first + 2 * (n - start);
    if i == |results| && n == cfg.Count() {
      OneRefusal(ctx, first, question + if e == CommitFailure then 0 else if e == IndexFailure then 1 else 2);
      hide FirstRefusal;
    }
  }

  // Whatever the results are, they halt somewhere and leave a frontier.
  lemma {:induction false} HaltExists(results: seq<LoadResult>, from: nat) returns (i: nat)
    requires from <= |results| && forall k :: 0 <= k < from ==> results[k].Delivered?
    ensures from <= i && Halt(results, i)
    decreases |results| - from
  {
    if from == |results| || results[from].Undelivered? {
      i := from;
    } else {
      i := HaltExists(results, from + 1);
    }
  }

  lemma {:induction false} FrontierExists(cfg: Config, start: nat, results: seq<LoadResult>, i: nat, from: nat)
    returns (n: nat)
    requires Delivery(cfg, start, results) && start <= from <= cfg.Count() && InTurn(start, results, i, from)
    ensures from <= n <= cfg.Count() && Frontier(start, results, i, n)
    decreases cfg.Count() - from
  {
    if OrdinalArrived(results, i, from) {
      var k :| 0 <= k < i && k < |results| && results[k].Delivered? && results[k].segment.entry.ordinal == from;
      assert DeliveredOk(cfg, start, results[k].segment);
      n := FrontierExists(cfg, start, results, i, from + 1);
    } else {
      n := from;
    }
  }

  // The merge stopped at ordinal m while taking in result i - 1.
  lemma StoppingIsReason(
    cfg: Config, ctx: nat -> bool, first: nat, start: nat, results: seq<LoadResult>, i: nat, m: nat, e: MergeError)
    requires Delivery(cfg, start, results) && i <= |results| && forall k :: 0 <= k < i ==> results[k].Delivered?
    requires InTurn(start, results, i, m + 1) && StoppedAt(cfg, ctx, first, start, m, e)
    ensures Because(cfg, ctx, first, start, results, e)
  {
    var j := HaltExists(results, i);
    assert InTurn(start, results, j, m + 1) by {
      forall o: nat | start <= o < m + 1 ensures OrdinalArrived(results, j, o) {
        assert OrdinalArrived(results, i, o);
      }
    }
    var n := FrontierExists(cfg, start, results, j, m + 1);
    assert BecauseAt(cfg, ctx, first, start, results, j, n, e);
  }

  // The merge wrote everything in turn and ended after i results.
  lemma EndingIsReason(
    cfg: Config, ctx: nat -> bool, first: nat, start: nat, results: seq<LoadResult>, i: nat,
    pending: map<nat, LoadedSegment>, n: nat, e: MergeError)
    requires PendingOk(start, results, i, pending, n) && n !in pending && (i < |results| ==> results[i].Undelivered?)
    requires EndsAfter(cfg, ctx, first, start, results, i, n, e)
    ensures Because(cfg, ctx, first, start, results, e)
  {
    NextHasNotArrived(start, results, i, pending, n);
    assert BecauseAt(cfg, ctx, first, start, results, i, n, e);
  }

  lemma StoppedNow(cfg: Config, ctx: nat -> bool, asked: nat, next: nat, appended: bool, saved: bool)
    requires next < cfg.Count() && appended == !ctx(asked) && saved == (appended && !ctx(asked + 1))
    ensures !appended ==>
      && StoppedAt(cfg, ctx, asked, next, next, WriteFailure(cfg.manifest.segments[next].id))
      && Refused(ctx, asked, asked + 1)
    ensures appended && !saved ==> StoppedAt(cfg, ctx, asked, next, next, SaveFailure)
    ensures appended ==> (saved <==> !Refused(ctx, asked, asked + 2))
  {
    RefusedOnce(ctx, asked);
    hide Refused;
  }

  lemma StoppedAbandons(cfg: Config, ctx: nat -> bool, first: nat, start: nat, m: nat, e: MergeError)
    requires StoppedAt(cfg, ctx, first, start, m, e)
    ensures Abandons(e)
  {
  }

  // The questions before these were let through.
  lemma StoppedLater(
    cfg: Config, ctx: nat -> bool, first: nat, start: nat, polls: nat, from: nat, m: nat, e: MergeError)
    requires start <= from && polls == first + 2 * (from - start) && !Refused(ctx, first, polls)
    requires StoppedAt(cfg, ctx, polls, from, m, e)
    ensures StoppedAt(cfg, ctx, first, start, m, e)
  {
    var question := polls + 2 * (m - from);
    RefusedOver(ctx, first, polls, question);
    RefusedOver(ctx, first, polls, question + 1);
    hide Refused;
  }

  lemma LastSteps(ctx: nat -> bool, asked: nat)
    ensures ctx(asked) ==> EndsLate(ctx, asked, asked, CommitFailure)
    ensures !ctx(asked) && ctx(asked + 1) ==> EndsLate(ctx, asked, asked, IndexFailure)
    ensures !ctx(asked) && !ctx(asked + 1) && ctx(asked + 2) ==> EndsLate(ctx, asked, asked, ClearFailure)
    ensures Refused(ctx, asked + 1, asked + 3) <==> ctx(asked + 1) || ctx(asked + 2)
    ensures Refused(ctx, asked, asked + 3) <==> ctx(asked) || ctx(asked + 1) || ctx(asked + 2)
  {
  }

  lemma EndsLater(ctx: nat -> bool, first: nat, polls: nat, e: MergeError)
    requires first <= polls && !Refused(ctx, first, polls) && EndsLate(ctx, polls, polls, e)
    ensures EndsLate(ctx, first, polls, e)
  {
    RefusedOver(ctx, first, polls, polls + 1);
    RefusedOver(ctx, first, polls, polls + 2);
    hide Refused;
    RefusedOnce(ctx, polls);
  }

  // The collecting loop gives up on result i: an error message, or a refusal while writing.
  lemma TurnReason(
    cfg: Config, ctx: nat -> bool, first: nat, start: nat, results: seq<LoadResult>, i: nat, polls: nat,
    pending: map<nat, LoadedSegment>, from: nat, m: nat, e: MergeError)
    requires Delivery(cfg, start, results) && i < |results|
    requires PendingOk(start, results, i, pending, from) && from !in pending
    requires polls == first + 2 * (from - start) && !Refused(ctx, first, polls)
    requires if results[i].Undelivered? then e == LoadFailure(results[i].error)
      else StoppedAt(cfg, ctx, polls, from, m, e) && InTurn(start, results, i + 1, m + 1)
    ensures Because(cfg, ctx, first, start, results, e)
  {
    if results[i].Undelivered? {
      EndingIsReason(cfg, ctx, first, start, results, i, pending, from, e);
    } else {
      StoppedLater(cfg, ctx, first, start, polls, from, m, e);
      StoppingIsReason(cfg, ctx, first, start, results, i + 1, m, e);
    }
  }

  // The tail after the last result gives up.
  lemma FinishReason(
    cfg: Config, ctx: nat -> bool, first: nat, start: nat, results: seq<LoadResult>, polls: nat,
    pending: map<nat, LoadedSegment>, n: nat, e: MergeError)
    requires PendingOk(start, results, |results|, pending, n) && n !in pending
    requires polls == first + 2 * (n - start) && !Refused(ctx, first, polls)
    requires if n == cfg.Count() then EndsLate(ctx, polls, polls, e) else e == IncompleteResults
    ensures Because(cfg, ctx, first, start, results, e)
  {
    if n == cfg.Count() {
      EndsLater(ctx, first, polls, e);
    }
    EndingIsReason(cfg, ctx, first, start, results, |results|, pending, n, e);
  }

  // Every reason to fail is a result that is missing or a question refused.
  lemma ReasonMeansTrouble(
    cfg: Config, ctx: nat -> bool, first: nat, start: nat, results: seq<LoadResult>, e: MergeError)
    requires Delivery(cfg, start, results) && start <= cfg.Count()
    requires Because(cfg, ctx, first, start, results, e)
    ensures Complete(cfg, start, results) ==> Refused(ctx, first, first + 2 * (cfg.Count() - start) + 3)
  {
    var i: nat, n: nat :| BecauseAt(cfg, ctx, first, start, results, i, n, e);
    if Complete(cfg, start, results) {
      CompleteReaches(cfg, start, results, i, n);
    }
  }

  lemma CompleteReaches(cfg: Config, start: nat, results: seq<LoadResult>, i: nat, n: nat)
    requires Delivery(cfg, start, results) && start <= cfg.Count() && Complete(cfg, start, results)
    requires Halt(results, i) && Frontier(start, results, i, n)
    ensures i == |results| && n == cfg.Count()
  {
    NoneBeyond(cfg, start, results, i);
  }

  lemma NoneBeyond(cfg: Config, start: nat, results: seq<LoadResult>, i: nat)
    requires Delivery(cfg, start, results)
    ensures !OrdinalArrived(results, i, cfg.Count())
  {
  }

  lemma ExactReason(
    cfg: Config, ctx: nat -> bool, first: nat, start: nat, results: seq<LoadResult>,
    r: Result<MergeResult, MergeError>)
    requires Delivery(cfg, start, results) && start <= cfg.Count()
    requires r.Success? ==>
      Complete(cfg, start, results) && !Refused(ctx, first, first + 2 * (cfg.Count() - start) + 3)
    requires r.Failure? ==> Because(cfg, ctx, first, start, results, r.error)
    ensures forall e :: r == Failure(e) <==> Because(cfg, ctx, first, start, results, e)
  {
    hide Because, Complete, Refused, Delivery;
    forall e ensures r == Failure(e) <==> Because(cfg, ctx, first, start, results, e) {
      if r.Success? {
        if Because(cfg, ctx, first, start, results, e) {
          ReasonMeansTrouble(cfg, ctx, first, start, results, e);
        }
      } else if Because(cfg, ctx, first, start, results, e) {
        OneReason(cfg, ctx, first, start, results, e, r.error);
      }
    }
  }

  // When the channel closes, everything is written exactly when nothing was missing.
  lemma AllWritten(
    cfg: Config, start: nat, results: seq<LoadResult>, pending: map<nat, LoadedSegment>, next: nat)
    requires Delivery(cfg, start, results) && PendingOk(start, results, |results|, pending, next)
    requires next !in pending && next <= cfg.Count()
    ensures next == cfg.Count() <==> Complete(cfg, start, results)
    ensures next == cfg.Count() ==> PendingLeases(pending) == {}
  {
    NextHasNotArrived(start, results, |results|, pending, next);
    forall o | o in pending ensures DeliveredOk(cfg, start, pending[o]) {
      ArrivedIsDelivered(cfg, start, results, |results|, pending[o]);
    }
  }

  // ---------- Where a merge starts from and where it ends ----------

  // The session, its draft and the checkpoint agree on the ordinal to start at.
  ghost predicate Ready(cfg: Config, disk: Disk, session: string, start: nat) {
    && DraftAt(cfg, disk.writer, session, start) && NamesIssued(disk.writer) && session != ""
    && (cfg.FileID() in disk.checkpoints ==>
          var c := disk.checkpoints[cfg.FileID()];
          CheckpointOk(cfg, c) && c.sessionID == session && c.nextOrdinal == start)
    && (cfg.FileID() !in disk.checkpoints ==> start == 0)
  }

  // Every result is a loaded segment and every planned ordinal is among them.
  ghost predicate Complete(cfg: Config, start: nat, results: seq<LoadResult>) {
    && (forall k :: 0 <= k < |results| ==> results[k].Delivered?)
    && (forall o: nat :: start <= o < cfg.Count() ==> OrdinalArrived(results, |results|, o))
  }

  lemma NotComplete(cfg: Config, start: nat, results: seq<LoadResult>, i: nat)
    requires i < |results| && !results[i].Delivered?
    ensures !Complete(cfg, start, results)
  {
  }

  predicate Abandons(e: MergeError) {
    e.LoadFailure? || e.WriteFailure? || e.SaveFailure? || e.IncompleteResults?
  }

  // Errors before the first segment is loaded.
  predicate Refuses(e: MergeError) {
    e.ContextExpired? || e.PlanRefused? || e.SessionRefused?
  }

  // Nothing but this file and this session changed.
  ghost predicate Beside(cfg: Config, before: Disk, after: Disk, session: string) {
    var f := cfg.FileID();
    && after.writer.next == before.writer.next && NamesIssued(after.writer)
    && after.writer.drafts - {session} == before.writer.drafts - {session}
    && after.writer.outputs - {f} == before.writer.outputs - {f}
    && after.writer.data - {f} == before.writer.data - {f}
    && after.checkpoints - {f} == before.checkpoints - {f}
    && after.index - {f} == before.index - {f}
  }

  // What each way of returning leaves behind.
  ghost predicate Ends(
    cfg: Config, before: Disk, after: Disk, session: string, r: Result<MergeResult, MergeError>)
    requires ConfigOk(cfg)
  {
    var f := cfg.FileID();
    && Beside(cfg, before, after, session)
    && match r
       case Success(result) =>
         && Published(cfg, after) && session !in after.writer.drafts
         && result.receipt == ExpectedReceipt(cfg, Expected(cfg)) && result.segmentCount == cfg.Count()
         && f in after.index && after.index[f] == result.receipt
         && f !in after.checkpoints
       case Failure(e) =>
         if Abandons(e) then
           && after.writer == Writers.Aborted(before.writer, session) && after.index == before.index
           && f !in after.checkpoints && Resumable(cfg, after)
         else if e.CommitFailure? then
           && after.writer.outputs == before.writer.outputs && after.writer.data == before.writer.data
           && after.index == before.index && session in after.writer.drafts && Resumable(cfg, after)
           && after.checkpoints == AllSaved(cfg, before.checkpoints, session)
         else
           && (e.IndexFailure? || e.ClearFailure?)
           && Published(cfg, after) && session !in after.writer.drafts && session != ""
           && after.checkpoints == AllSaved(cfg, before.checkpoints, session)
           && after.index ==
                if e.IndexFailure? then before.index
                else before.index[f := ExpectedReceipt(cfg, Expected(cfg))]
  }

  // The checkpoint store once the last ordinal was saved; without segments there is none to save.
  function AllSaved(cfg: Config, items: map<string, Checkpoint>, session: string): map<string, Checkpoint> {
    if cfg.Count() == 0 then items - {cfg.FileID()}
    else items[cfg.FileID() := CheckpointAt(cfg.manifest, session, cfg.Count())]
  }

  // Starting at the end, the checkpoint already is the last one.
  lemma SavedUpToIsAll(cfg: Config, disk: Disk, session: string, start: nat)
    requires Ready(cfg, disk, session, start) && start <= cfg.Count()
    ensures SavedUpTo(disk.checkpoints, cfg.manifest, session, start, cfg.Count())
      == AllSaved(cfg, disk.checkpoints, session)
  {
    if start == cfg.Count() > 0 {
      assert disk.checkpoints[cfg.FileID()] == CheckpointAt(cfg.manifest, session, start);
    }
  }

  // However a merge ended, the next one may trust what it finds.
  lemma EndsTrusted(cfg: Config, before: Disk, after: Disk, session: string, r: Result<MergeResult, MergeError>)
    requires ConfigOk(cfg) && Ends(cfg, before, after, session, r)
    ensures Trusted(cfg, after)
  {
    if r.Failure? && (r.error.IndexFailure? || r.error.ClearFailure?) && cfg.Count() > 0 {
      AllSavedTrusted(cfg, after, session);
    }
  }

  lemma AllSavedTrusted(cfg: Config, after: Disk, session: string)
    requires ConfigOk(cfg) && cfg.Count() > 0
    requires cfg.FileID() in after.checkpoints
    requires after.checkpoints[cfg.FileID()] == CheckpointAt(cfg.manifest, session, cfg.Count())
    requires session != "" && session !in after.writer.drafts && NamesIssued(after.writer)
    ensures Trusted(cfg, after)
  {
  }

  // Whatever the stores hold for this file was left by merges of the same
  // manifest; the draft may be gone, and the checkpoint may be another version's.
  ghost predicate Trusted(cfg: Config, disk: Disk)
    requires ConfigOk(cfg)
  {
    && NamesIssued(disk.writer)
    && (cfg.FileID() in disk.checkpoints ==>
          var c := disk.checkpoints[cfg.FileID()];
          c.Matches(cfg.manifest) && 0 <= c.nextOrdinal <= cfg.Count() ==>
            && CheckpointOk(cfg, c)
            && (Begun(disk.writer, PlanFor(cfg, Some(c))).Some? ==>
                  DraftAt(cfg, disk.writer, c.sessionID, c.nextOrdinal)))
  }

  function Opening(cfg: Config, disk: Disk): Option<State>
    requires cfg.manifest.totalSize >= 0
  {
    Start(cfg, disk, 1, 1)
  }

  // The stored checkpoint is for this manifest, or there is none.
  predicate CheckpointUsable(cfg: Config, disk: Disk) {
    cfg.FileID() in disk.checkpoints ==>
      var c := disk.checkpoints[cfg.FileID()];
      c.fileID == cfg.FileID() && c.version == cfg.manifest.version && 0 <= c.nextOrdinal <= cfg.Count()
  }

  // Why nothing is loaded at all. Loading the checkpoint asks the context
  // first, beginning a session second.
  ghost predicate RefusedBecause(ctx: nat -> bool, manifest: Manifest, cfg: Config, disk: Disk, e: MergeError)
    requires Acceptable(manifest) ==> cfg.manifest.totalSize >= 0
  {
    if !Acceptable(manifest) then
      e.PlanRefused? && e.cause.BadManifest? && Justified(e.cause.cause, manifest)
    else if ctx(0) then e == ContextExpired
    else if !CheckpointUsable(cfg, disk) then e == PlanRefused(CheckpointMismatch)
    else if ctx(1) then e == ContextExpired
    else e == SessionRefused && Opening(cfg, disk).None?
  }

  lemma CompiledHeader(m: Manifest)
    requires Acceptable(m)
    ensures Compiled(m).totalSize >= 0 && |Compiled(m).segments| == |m.segments|
  {
  }

  lemma OpeningIsBegun(cfg: Config, disk: Disk)
    requires cfg.manifest.totalSize >= 0
    ensures var stored := StoredCheckpoint(cfg, disk);
      if stored.Some? && !(stored.value.Matches(cfg.manifest) && 0 <= stored.value.nextOrdinal <= cfg.Count())
      then Opening(cfg, disk).None?
      else
        var plan := PlanFor(cfg, stored);
        var begun := Begun(disk.writer, plan);
        && Opening(cfg, disk).Some? == begun.Some?
        && (begun.Some? ==>
              var s := Opening(cfg, disk).value;
              s.start == plan.startOrdinal && s.session == begun.value.0
              && s.disk == disk.(writer := begun.value.1))
  {
  }

  // A merge that gets past Begin has a session in agreement with its checkpoint.
  lemma OpeningIsReady(cfg: Config, disk: Disk)
    requires ConfigOk(cfg) && Trusted(cfg, disk) && Opening(cfg, disk).Some?
    ensures var s := Opening(cfg, disk).value; Ready(cfg, s.disk, s.session, s.start)
  {
    ZerosAreMerged(cfg);
    NextNameIsFresh(disk.writer);
  }

  lemma PlanIsPlanFor(manifest: Manifest, env: Env, source: Source, checkpoint: Option<Checkpoint>, plan: MergePlan)
    requires checkpoint.Some? ==> 0 <= checkpoint.value.nextOrdinal <= |manifest.segments|
    requires manifest == Compiled(manifest)
    requires plan.fileID == manifest.fileID && plan.version == manifest.version
    requires plan.totalSize == manifest.totalSize
    requires plan.startOrdinal == (if checkpoint.Some? then checkpoint.value.nextOrdinal else 0)
    requires plan.sessionID == (if checkpoint.Some? then checkpoint.value.sessionID else "")
    requires |plan.entries| == |manifest.segments| - plan.startOrdinal
    requires forall k :: 0 <= k < |plan.entries| ==>
      plan.entries[k] == EntryFor(manifest.segments, plan.startOrdinal + k)
    ensures plan == PlanFor(Config(env, source, manifest), checkpoint)
  {
    assert plan.entries == PlanFor(Config(env, source, manifest), checkpoint).entries;
  }

  lemma EndsAfterLoading(
    cfg: Config, before: Disk, after: Disk, session: string, r: Result<MergeResult, MergeError>)
    requires ConfigOk(cfg) && Ends(cfg, before, after, session, r)
    ensures r.Failure? ==> !Refuses(r.error)
  {
  }

  lemma GivingUpEnds(
    cfg: Config, before: Disk, written: WriterState, after: Disk, session: string, start: nat,
    r: Result<MergeResult, MergeError>)
    requires Ready(cfg, before, session, start) && Aside(before.writer, written, session)
    requires after.writer == Writers.Aborted(written, session) && after.index == before.index
    requires after.checkpoints == before.checkpoints - {cfg.FileID()}
    requires r.Failure? && Abandons(r.error)
    ensures Ends(cfg, before, after, session, r)
  {
    assert after.writer.drafts == before.writer.drafts - {session};
  }

  // The checkpoint store after the ordinals from `start` to `next` were saved.
  function SavedUpTo(
    items: map<string, Checkpoint>, manifest: Manifest, session: string, start: nat, next: nat)
    : map<string, Checkpoint>
    requires start <= next <= |manifest.segments|
  {
    if next == start then items else items[manifest.fileID := CheckpointAt(manifest, session, next)]
  }

  function CheckpointAt(manifest: Manifest, session: string, next: nat): Checkpoint
    requires 0 < next <= |manifest.segments|
  {
    Checkpoint(manifest.fileID, manifest.version, session, next, manifest.segments[next - 1].End())
  }

  lemma SavedUpToStarts(items: map<string, Checkpoint>, manifest: Manifest, session: string, start: nat)
    requires start <= |manifest.segments|
    ensures SavedUpTo(items, manifest, session, start, start) == items
  {
  }

  lemma SavedUpToChains(
    items: map<string, Checkpoint>, manifest: Manifest, session: string, start: nat, middle: nat, next: nat)
    requires start <= middle <= next <= |manifest.segments|
    ensures SavedUpTo(SavedUpTo(items, manifest, session, start, middle), manifest, session, middle, next)
      == SavedUpTo(items, manifest, session, start, next)
    ensures SavedUpTo(items, manifest, session, start, next) - {manifest.fileID} == items - {manifest.fileID}
  {
  }

  lemma SavedUpToNext(
    items: map<string, Checkpoint>, manifest: Manifest, session: string, start: nat, next: nat)
    requires start <= next < |manifest.segments|
    ensures var mark := CheckpointAt(manifest, session, next + 1);
      SavedUpTo(items, manifest, session, start, next)[manifest.fileID := mark]
        == SavedUpTo(items, manifest, session, start, next + 1)
  {
  }

  // A draft with every ordinal written: what committing it publishes.
  lemma FullDraft(cfg: Config, full: Disk, session: string)
    requires DraftAt(cfg, full.writer, session, cfg.Count())
    ensures AllLoad(cfg) && session in full.writer.drafts
    ensures var receipt := ReceiptFor(cfg.env.digest, full.writer.drafts[session]);
      receipt == ExpectedReceipt(cfg, Expected(cfg)) && ReceiptOk(receipt) && receipt.fileID == cfg.FileID()
    ensures forall after: Disk :: after.writer == Writers.Committed(cfg.env.digest, full.writer, session) ==>
      Published(cfg, after)
  {
    MergedIsExpected(cfg, full.writer.drafts[session].data);
  }

  lemma PublishingEnds(
    cfg: Config, before: Disk, full: Disk, after: Disk, session: string, start: nat,
    r: Result<MergeResult, MergeError>)
    requires Ready(cfg, before, session, start) && Aside(before.writer, full.writer, session)
    requires start <= cfg.Count() && DraftAt(cfg, full.writer, session, cfg.Count())
    requires full.checkpoints == SavedUpTo(before.checkpoints, cfg.manifest, session, start, cfg.Count())
    requires full.index == before.index
    requires Outcome(cfg, full, after, session, r)
    ensures Ends(cfg, before, after, session, r)
  {
    SavedUpToChains(before.checkpoints, cfg.manifest, session, start, cfg.Count(), cfg.Count());
    SavedUpToIsAll(cfg, before, session, start);
    hide Published, CheckpointOk, Resumable, SavedUpTo, AllSaved;
    if r.Failure? && r.error == CommitFailure {
      ResumableFromEnd(cfg, before, after, session, start);
    } else {
      assert full.writer.drafts[session].fileID == cfg.FileID();
      CommittedAside(before.writer, full.writer, cfg.env.digest, session);
      hide DraftOk, Aside, Writers.Committed;
    }
  }

  lemma CommittedAside(w: WriterState, full: WriterState, digest: bytes -> string, session: string)
    requires Aside(w, full, session) && session in full.drafts && NamesIssued(w)
    ensures var f, v := full.drafts[session].fileID, Writers.Committed(digest, full, session);
      && v.next == w.next && NamesIssued(v) && v.drafts == w.drafts - {session}
      && v.outputs - {f} == w.outputs - {f} && v.data - {f} == w.data - {f}
  {
  }

  lemma ResumableFromEnd(cfg: Config, before: Disk, full: Disk, session: string, start: nat)
    requires Ready(cfg, before, session, start) && Aside(before.writer, full.writer, session)
    requires start <= cfg.Count() && DraftAt(cfg, full.writer, session, cfg.Count())
    requires full.checkpoints == SavedUpTo(before.checkpoints, cfg.manifest, session, start, cfg.Count())
    ensures Resumable(cfg, full)
  {
  }

  // What the tail of Merge does, seen from the disk.
  ghost predicate Outcome(
    cfg: Config, full: Disk, after: Disk, session: string, r: Result<MergeResult, MergeError>)
    requires ConfigOk(cfg)
  {
    if r.Failure? && r.error == CommitFailure then after == full
    else
      && (r.Failure? ==> r.error in {IndexFailure, ClearFailure})
      && session in full.writer.drafts
      && after.writer == Writers.Committed(cfg.env.digest, full.writer, session)
      && Published(cfg, after)
      && var receipt := ExpectedReceipt(cfg, Expected(cfg));
      && after.index == (if r.Failure? && r.error == IndexFailure then full.index
                         else full.index[cfg.FileID() := receipt])
      && after.checkpoints == (if r.Failure? then full.checkpoints else full.checkpoints - {cfg.FileID()})
      && (r.Success? ==> r.value.receipt == receipt && r.value.segmentCount == cfg.Count())
  }

  lemma UncommittedOutcome(cfg: Config, full: Disk, session: string)
    requires ConfigOk(cfg)
    ensures Outcome(cfg, full, full, session, Failure(CommitFailure))
  {
  }

  // From what Commit and Announce did to what the caller is told.
  lemma CommittedOutcome(
    cfg: Config, full: Disk, after: Disk, session: string, problem: Option<MergeError>,
    r: Result<MergeResult, MergeError>)
    requires DraftAt(cfg, full.writer, session, cfg.Count())
    requires after.writer == Writers.Committed(cfg.env.digest, full.writer, session)
    requires problem.Some? ==> problem.value in {IndexFailure, ClearFailure}
    requires var receipt := ReceiptFor(cfg.env.digest, full.writer.drafts[session]);
      && after.index == (if problem == Some(IndexFailure) then full.index else full.index[receipt.fileID := receipt])
      && after.checkpoints == (if problem.Some? then full.checkpoints else full.checkpoints - {receipt.fileID})
      && (problem.None? ==> r.Success? && r.value.receipt == receipt && r.value.segmentCount == cfg.Count())
    requires problem.Some? ==> r == Failure(problem.value)
    ensures Outcome(cfg, full, after, session, r)
  {
    FullDraft(cfg, full, session);
    hide DraftAt, Published, ReceiptOk, ReceiptFor, ExpectedReceipt, Writers.Committed;
  }

  class Merger {
    const env: Env
    const source: Source
    const writer: MemoryWriter
    const checkpoints: MemoryCheckpoints
    const index: MemoryIndex
    const budget: ByteBudget

    constructor (
      env: Env, source: Source, writer: MemoryWriter, checkpoints: MemoryCheckpoints, index: MemoryIndex,
      budget: ByteBudget)
      ensures this.env == env && this.source == source && this.writer == writer
      ensures this.checkpoints == checkpoints && this.index == index && this.budget == budget
    {
      this.env, this.source, this.writer, this.checkpoints, this.index, this.budget :=
        env, source, writer, checkpoints, index, budget;
    }

    // Each lease belongs to this merger's budget and is outstanding unless released.
    ghost predicate LeasesHeld(leases: set<BudgetLease>)
      reads budget, budget.weights.Keys, leases
    {
      && budget.Balanced()
      && forall lease :: lease in leases ==> lease.budget == budget && (lease.released || lease in budget.weights)
    }

    lemma NoneOutstanding(leases: set<BudgetLease>)
      requires LeasesHeld(leases) && budget.weights.Keys !! leases
      ensures forall lease :: lease in leases ==> lease.released
    {
    }

    // LoadedSegment.release, seen from all the leases of the merge
    method ReleaseOne(lease: BudgetLease, ghost leases: set<BudgetLease>)
      requires LeasesHeld(leases) && lease in leases
      modifies budget, lease
      ensures LeasesHeld(leases) && budget.weights.Keys == old(budget.weights.Keys) - {lease}
    {
      var _ := lease.Release();
    }

    // releasePending
    method ReleasePending(pending: map<nat, LoadedSegment>, ghost leases: set<BudgetLease>)
      requires LeasesHeld(leases) && PendingLeases(pending) <= leases
      modifies budget, leases
      ensures LeasesHeld(leases)
      ensures budget.weights.Keys == old(budget.weights.Keys) - PendingLeases(pending)
    {
      var left := pending.Keys;
      ghost var all, done := PendingLeases(pending), {};
      while left != {}
        invariant left <= pending.Keys && done <= all && LeasesHeld(leases)
        invariant forall i :: i in pending && i !in left ==> pending[i].lease in done
        invariant budget.weights.Keys == old(budget.weights.Keys) - done
        decreases |left|
      {
        var ordinal :| ordinal in left;
        var lease := pending[ordinal].lease;
        assert lease in all;
        ReleaseOne(lease, leases);
        left, done := left - {ordinal}, done + {lease};
      }
      assert done == all;
    }

    // drainLoadResults, over the results still to come
    method Drain(results: seq<LoadResult>, ghost leases: set<BudgetLease>)
      requires LeasesHeld(leases) && LeasesOf(results) <= leases
      modifies budget, leases
      ensures LeasesHeld(leases)
      ensures budget.weights.Keys == old(budget.weights.Keys) - LeasesOf(results)
    {
      ghost var done: set<BudgetLease> := {};
      for i := 0 to |results|
        invariant LeasesHeld(leases) && done == LeasesOf(results[..i])
        invariant budget.weights.Keys == old(budget.weights.Keys) - done
      {
        LeasesOfPrefix(results, i);
        if results[i].Delivered? {
          assert results[i].segment.lease in LeasesOf(results);
          ReleaseOne(results[i].segment.lease, leases);
          done := done + {results[i].segment.lease};
        }
      }
      assert results[..|results|] == results;
    }

    // The common tail of the error exits: release, drain, abort, clear.
    method GiveUp(
      pending: map<nat, LoadedSegment>, rest: seq<LoadResult>, session: MemorySession, fileID: string,
      ghost leases: set<BudgetLease>)
      requires LeasesHeld(leases) && PendingLeases(pending) <= leases && LeasesOf(rest) <= leases
      requires session.owner == writer && writer.Valid() && session.Open()
      modifies budget, leases, session, writer, checkpoints
      ensures LeasesHeld(leases)
      ensures budget.weights.Keys == old(budget.weights.Keys) - PendingLeases(pending) - LeasesOf(rest)
      ensures writer.Valid() && writer.State() == Writers.Aborted(old(writer.State()), session.id)
      ensures checkpoints.items == old(checkpoints.items) - {fileID}
    {
      hide LeasesHeld, LeasesOf, PendingLeases, MemoryWriter.Valid;
      ReleasePending(pending, leases);
      Drain(rest, leases);
      var _ := session.Abort(false);
      var _ := checkpoints.Clear(false, fileID);
    }

    ghost predicate SessionReady(session: MemorySession)
      reads writer, writer.buffers, session
    {
      writer.Valid() && session.owner == writer && session.Open()
    }

    method AppendLoaded(
      expired: bool, ghost cfg: Config, session: MemorySession, loaded: LoadedSegment, ghost start: nat)
      returns (ok: bool)
      requires DeliveredOk(cfg, start, loaded) && SessionReady(session)
      requires DraftAt(cfg, writer.State(), session.id, loaded.entry.ordinal)
      modifies writer`staged, session.draft.data
      ensures ok == !expired && SessionReady(session)
      ensures ok ==> DraftAt(cfg, writer.State(), session.id, loaded.entry.ordinal + 1)
      ensures Aside(old(writer.State()), writer.State(), session.id)
    {
      DraftAdvances(cfg, start, writer.State(), session.id, loaded);
      ok := session.AppendAt(expired, loaded.entry.segment.offset, loaded.data);
    }

    // One pass of the inner loop: append, release, save. `ctx(k)` is what the
    // caller's context reports when it is asked for the k-th time.
    method WriteNext(
      ctx: nat -> bool, asked: nat, ghost cfg: Config, manifest: Manifest, session: MemorySession,
      loaded: LoadedSegment, ghost start: nat, ghost leases: set<BudgetLease>)
      returns (appended: bool, saved: bool)
      requires manifest == cfg.manifest && DeliveredOk(cfg, start, loaded) && SessionReady(session)
      requires DraftAt(cfg, writer.State(), session.id, loaded.entry.ordinal)
      requires LeasesHeld(leases) && loaded.lease in leases
      modifies budget, loaded.lease, writer`staged, session.draft.data, checkpoints
      ensures LeasesHeld(leases) && budget.weights.Keys == old(budget.weights.Keys) - {loaded.lease}
      ensures appended == !ctx(asked) && saved == (appended && !ctx(asked + 1)) && SessionReady(session)
      ensures appended ==> DraftAt(cfg, writer.State(), session.id, loaded.entry.ordinal + 1)
      ensures Aside(old(writer.State()), writer.State(), session.id)
      ensures saved ==>
        var mark := CheckpointAt(manifest, session.id, loaded.entry.ordinal + 1);
        checkpoints.items == old(checkpoints.items)[manifest.fileID := mark]
      ensures !saved ==> checkpoints.items == old(checkpoints.items)
    {
      DeliveredFits(cfg, start, loaded);
      hide LeasesHeld, SessionReady, Aside, DraftOk, DeliveredOk, CheckpointAt, MemoryWriter.Valid;
      appended := AppendLoaded(ctx(asked), cfg, session, loaded, start);
      saved := Settle(ctx(asked + 1), appended, manifest, session.id, loaded, leases);
    }

    // Releases the segment and, if it was written, saves the checkpoint after it.
    method Settle(
      expired: bool, appended: bool, manifest: Manifest, session: string, loaded: LoadedSegment,
      ghost leases: set<BudgetLease>)
      returns (saved: bool)
      requires loaded.entry.ordinal < |manifest.segments|
      requires loaded.entry.segment == manifest.segments[loaded.entry.ordinal]
      requires |loaded.data| == loaded.entry.segment.Weight()
      requires LeasesHeld(leases) && loaded.lease in leases
      modifies budget, loaded.lease, checkpoints
      ensures LeasesHeld(leases) && budget.weights.Keys == old(budget.weights.Keys) - {loaded.lease}
      ensures saved == (appended && !expired)
      ensures saved ==>
        var mark := CheckpointAt(manifest, session, loaded.entry.ordinal + 1);
        checkpoints.items == old(checkpoints.items)[manifest.fileID := mark]
      ensures !saved ==> checkpoints.items == old(checkpoints.items)
    {
      ReleaseOne(loaded.lease, leases);
      if !appended {
        return false;
      }
      saved := SaveAfter(expired, manifest, session, loaded);
    }

    method SaveAfter(expired: bool, manifest: Manifest, session: string, loaded: LoadedSegment) returns (ok: bool)
      requires loaded.entry.ordinal < |manifest.segments|
      requires loaded.entry.segment == manifest.segments[loaded.entry.ordinal]
      requires |loaded.data| == loaded.entry.segment.Weight()
      modifies checkpoints
      ensures ok == !expired
      ensures ok ==>
        var mark := CheckpointAt(manifest, session, loaded.entry.ordinal + 1);
        checkpoints.items == old(checkpoints.items)[manifest.fileID := mark]
      ensures !ok ==> checkpoints.items == old(checkpoints.items)
    {
      var size := loaded.entry.segment.offset as int + |loaded.data|;
      var next := loaded.entry.ordinal + 1;
      ok := checkpoints.Save(expired, Checkpoint(manifest.fileID, manifest.version, session, next, size));
    }

    // One turn of the inner loop on `pending[next]`. `base` is what was
    // outstanding before the first result.
    method FlushOne(
      ctx: nat -> bool, asked: nat, ghost cfg: Config, manifest: Manifest, session: MemorySession,
      pending: map<nat, LoadedSegment>, next: nat, ghost start: nat, ghost results: seq<LoadResult>, ghost i: nat,
      ghost freed: set<BudgetLease>, ghost leases: set<BudgetLease>, ghost base: set<BudgetLease>)
      returns (failed: Option<MergeError>, after: nat)
      requires manifest == cfg.manifest && Tracked(cfg, start, results, i, pending, next, freed, leases)
      requires next in pending && LeasesHeld(leases) && budget.weights.Keys == base - freed
      requires SessionReady(session) && DraftAt(cfg, writer.State(), session.id, next)
      modifies budget, leases, writer`staged, session.draft.data, checkpoints
      ensures next < cfg.Count() && pending[next].lease in leases && |pending - {next}| == |pending| - 1
      ensures InTurn(start, results, i, next + 1)
      ensures LeasesHeld(leases) && budget.weights.Keys == base - (freed + {pending[next].lease})
      ensures SessionReady(session) && asked <= after <= asked + 2
      ensures failed.Some? <==> Refused(ctx, asked, after)
      ensures failed.Some? ==> StoppedAt(cfg, ctx, asked, next, next, failed.value)
      ensures failed.None? ==> after == asked + 2
      ensures LeasesTraced(results, i, pending, freed + {pending[next].lease})
      ensures failed.None? ==> Tracked(
        cfg, start, results, i, pending - {next}, next + 1, freed + {pending[next].lease}, leases)
      ensures failed.None? ==> DraftAt(cfg, writer.State(), session.id, next + 1)
      ensures failed.None? ==>
        var mark := CheckpointAt(manifest, session.id, next + 1);
        checkpoints.items == old(checkpoints.items)[manifest.fileID := mark]
      ensures failed.Some? ==> checkpoints.items == old(checkpoints.items)
      ensures Aside(old(writer.State()), writer.State(), session.id)
    {
      hide Aside, SessionReady, LeasesTraced, PendingOk, Delivery, DraftOk, InTurn, StoppedAt, Refused, LeasesHeld;
      var loaded := pending[next];
      OneFewer(pending, next);
      WriteKept(start, results, i, pending, next, freed);
      ArrivedIsDelivered(cfg, start, results, i, loaded);
      DeliveredFits(cfg, start, loaded);
      NextInTurn(start, results, i, pending, next);
      var appended, saved := WriteNext(ctx, asked, cfg, manifest, session, loaded, start, leases);
      StoppedNow(cfg, ctx, asked, next, appended, saved);
      if !appended {
        return Some(WriteFailure(loaded.entry.segment.id)), asked + 1;
      }
      return if saved then None else Some(SaveFailure), asked + 2;
    }

    // The inner loop: write everything that is now in turn.
    method Flush(
      ctx: nat -> bool, askedBefore: nat, ghost cfg: Config, manifest: Manifest, session: MemorySession,
      arrived: map<nat, LoadedSegment>, from: nat, ghost start: nat, ghost results: seq<LoadResult>, ghost i: nat,
      ghost freedBefore: set<BudgetLease>, ghost leases: set<BudgetLease>, ghost base: set<BudgetLease>)
      returns (
        failed: Option<MergeError>, asked: nat, pending: map<nat, LoadedSegment>, next: nat,
        ghost freed: set<BudgetLease>)
      requires manifest == cfg.manifest && Tracked(cfg, start, results, i, arrived, from, freedBefore, leases)
      requires SessionReady(session) && DraftAt(cfg, writer.State(), session.id, from)
      requires LeasesHeld(leases) && budget.weights.Keys == base - freedBefore
      modifies budget, leases, writer`staged, session.draft.data, checkpoints
      ensures LeasesHeld(leases) && budget.weights.Keys == base - freed
      ensures LeasesTraced(results, i, pending, freed) && SessionReady(session)
      ensures askedBefore <= asked <= askedBefore + 2 * |arrived|
      ensures failed.None? ==> from <= next && asked == askedBefore + 2 * (next - from)
      ensures failed.None? ==> |pending| == |arrived| - (next - from)
      ensures Aside(old(writer.State()), writer.State(), session.id)
      ensures checkpoints.items - {manifest.fileID} == old(checkpoints.items) - {manifest.fileID}
      ensures failed.Some? <==> Refused(ctx, askedBefore, asked)
      ensures failed.Some? ==>
        StoppedAt(cfg, ctx, askedBefore, from, next, failed.value) && InTurn(start, results, i, next + 1)
      ensures failed.None? ==>
        Tracked(cfg, start, results, i, pending, next, freed, leases) && next !in pending && from <= next
      ensures failed.None? ==> DraftAt(cfg, writer.State(), session.id, next)
      ensures failed.None? ==>
        checkpoints.items == SavedUpTo(old(checkpoints.items), manifest, session.id, from, next)
    {
      hide SessionReady, PendingOk, LeasesTraced, Delivery, LeasesHeld, DraftOk, CheckpointAt;
      hide Aside, Refused, LeasesOf, SavedUpTo, InTurn, StoppedAt;
      RefusedOnce(ctx, askedBefore);
      AsideReflexive(writer.State(), session.id);
      SavedUpToStarts(checkpoints.items, manifest, session.id, from);
      failed, asked, pending, next, freed := None, askedBefore, arrived, from, freedBefore;
      while next in pending
        invariant failed.None? && from <= next <= cfg.Count() && asked == askedBefore + 2 * (next - from)
        invariant |pending| == |arrived| - (next - from)
        invariant Tracked(cfg, start, results, i, pending, next, freed, leases)
        invariant SessionReady(session) && DraftAt(cfg, writer.State(), session.id, next)
        invariant LeasesHeld(leases) && budget.weights.Keys == base - freed
        invariant checkpoints.items == SavedUpTo(old(checkpoints.items), manifest, session.id, from, next)
        invariant Aside(old(writer.State()), writer.State(), session.id) && !Refused(ctx, askedBefore, asked)
        decreases cfg.Count() - next
      {
        ghost var before := writer.State();
        var after;
        failed, after := FlushOne(
          ctx, asked, cfg, manifest, session, pending, next, start, results, i, freed, leases, base);
        freed := freed + {pending[next].lease};
        AsideTransitive(old(writer.State()), before, writer.State(), session.id);
        RefusedMore(ctx, askedBefore, asked, after);
        SavedUpToNext(old(checkpoints.items), manifest, session.id, from, next);
        SavedUpToChains(old(checkpoints.items), manifest, session.id, from, next, next);
        if failed.Some? {
          StoppedLater(cfg, ctx, askedBefore, from, asked, next, next, failed.value);
          asked := after;
          return;
        }
        asked, next, pending := asked + 2, next + 1, pending - {next};
      }
      SavedUpToChains(old(checkpoints.items), manifest, session.id, from, next, next);
    }

    // What outlives the run.
    ghost function Durable(): Disk
      reads writer, checkpoints, index
    {
      Disk(writer.State(), checkpoints.items, index.records)
    }

    // The tail of Merge, once every ordinal is written.
    method Publish(ctx: nat -> bool, asked: nat, ghost cfg: Config, session: MemorySession, resumed: bool, count: nat)
      returns (r: Result<MergeResult, MergeError>)
      requires env == cfg.env && SessionReady(session) && count == cfg.Count()
      requires DraftAt(cfg, writer.State(), session.id, count)
      modifies session, writer, checkpoints, index
      ensures writer.Valid()
      ensures r.Success? <==> !Refused(ctx, asked, asked + 3)
      ensures r.Failure? ==> EndsLate(ctx, asked, asked, r.error)
      ensures Outcome(cfg, old(Durable()), Durable(), session.id, r)
      ensures r.Success? ==> r.value.resumed == resumed
    {
      assert ConfigOk(cfg) && session.id in writer.State().drafts;
      hide ConfigOk;
      hide MemoryWriter.Valid, DraftAt, SessionReady, ReceiptOk, NamesIssued, Refused, Outcome, EndsLate;
      hide Writers.Committed, ReceiptFor;
      ghost var full := Durable();
      LastSteps(ctx, asked);
      var committed := CommitFull(ctx(asked), cfg, session);
      if committed.None? {
        UncommittedOutcome(cfg, full, session.id);
        return Failure(CommitFailure);
      }
      var receipt := committed.value;
      var problem := Announce(ctx, asked + 1, receipt);
      r := if problem.Some? then Failure(problem.value)
           else Result.Success(MergeResult(receipt, count, resumed));
      CommittedOutcome(cfg, full, Durable(), session.id, problem, r);
    }

    // session.Commit, with every ordinal written
    method CommitFull(expired: bool, ghost cfg: Config, session: MemorySession) returns (r: Option<CommitReceipt>)
      requires env == cfg.env && SessionReady(session) && DraftAt(cfg, writer.State(), session.id, cfg.Count())
      modifies session, writer
      ensures writer.Valid() && (r.None? <==> expired)
      ensures r.None? ==> Durable() == old(Durable())
      ensures r.Some? ==>
        && writer.State() == Writers.Committed(cfg.env.digest, old(writer.State()), session.id)
        && r.value == ReceiptFor(cfg.env.digest, old(writer.State()).drafts[session.id]) && ReceiptOk(r.value)
    {
      assert session.draft.Value() == writer.State().drafts[session.id];
      FullDraft(cfg, Durable(), session.id);
      hide MemoryWriter.Valid, DraftAt, ReceiptOk, NamesIssued, Writers.Committed, ReceiptFor;
      r := session.Commit(expired, env.digest);
    }

    // index.Put and the last checkpoints.Clear
    method Announce(ctx: nat -> bool, asked: nat, receipt: CommitReceipt) returns (problem: Option<MergeError>)
      modifies checkpoints, index
      ensures problem.None? <==> ReceiptOk(receipt) && !Refused(ctx, asked, asked + 2)
      ensures problem == Some(IndexFailure) <==> !ReceiptOk(receipt) || ctx(asked)
      ensures problem.Some? ==> problem.value in {IndexFailure, ClearFailure}
      ensures index.records ==
        if problem == Some(IndexFailure) then old(index.records) else old(index.records)[receipt.fileID := receipt]
      ensures checkpoints.items ==
        if problem.Some? then old(checkpoints.items) else old(checkpoints.items) - {receipt.fileID}
    {
      RefusedOnce(ctx, asked);
      hide IsDigestText, Refused;
      var ok := ReceiptOk(receipt);
      if ok {
        ok := index.Put(ctx(asked), receipt);
      }
      if !ok {
        return Some(IndexFailure);
      }
      ok := checkpoints.Clear(ctx(asked + 1), receipt.fileID);
      problem := if ok then None else Some(ClearFailure);
    }

    // The merge has returned r: no lease of its results is outstanding.
    ghost predicate Returned(
      cfg: Config, session: MemorySession, before: Disk, results: seq<LoadResult>, base: set<BudgetLease>,
      r: Result<MergeResult, MergeError>)
      reads writer, writer.buffers, session, checkpoints, index, budget, budget.weights.Keys, LeasesOf(results)
    {
      && ConfigOk(cfg) && LeasesHeld(LeasesOf(results)) && writer.Valid()
      && budget.weights.Keys == base - LeasesOf(results)
      && Ends(cfg, before, Durable(), session.id, r)
    }

    // Every error exit before the commit ends here.
    method Abandon(
      ghost cfg: Config, ghost before: Disk, ghost start: nat, error: MergeError, pending: map<nat, LoadedSegment>,
      ghost results: seq<LoadResult>, ghost i: nat, rest: seq<LoadResult>, session: MemorySession, fileID: string,
      ghost freed: set<BudgetLease>, ghost base: set<BudgetLease>)
      requires i <= |results| && rest == results[i..] && fileID == cfg.FileID() && Abandons(error)
      requires LeasesHeld(LeasesOf(results)) && LeasesTraced(results, i, pending, freed) && SessionReady(session)
      requires budget.weights.Keys == base - freed
      requires Ready(cfg, before, session.id, start) && Aside(before.writer, writer.State(), session.id)
      requires checkpoints.items - {fileID} == before.checkpoints - {fileID} && index.records == before.index
      modifies budget, LeasesOf(results), session, writer, checkpoints
      ensures Returned(cfg, session, before, results, base, Failure(error))
    {
      hide Aside, LeasesTraced, LeasesHeld, Ends, DraftOk;
      ghost var written := writer.State();
      TracedLeasesCover(results, i, pending, freed);
      GiveUp(pending, rest, session, fileID, LeasesOf(results));
      GivingUpEnds(cfg, before, written, Durable(), session.id, start, Failure(error));
    }

    // The state of the collecting loop after i results; `base` is what was
    // outstanding and `before` what was stored when the loop began.
    ghost predicate Going(
      cfg: Config, session: MemorySession, before: Disk, start: nat, results: seq<LoadResult>, i: nat,
      pending: map<nat, LoadedSegment>, next: nat, freed: set<BudgetLease>, base: set<BudgetLease>)
      reads writer, writer.buffers, session, checkpoints, index, budget, budget.weights.Keys, LeasesOf(results)
    {
      && start <= next <= cfg.Count() && next !in pending && next - start + |pending| == i
      && Tracked(cfg, start, results, i, pending, next, freed, LeasesOf(results))
      && SessionReady(session) && DraftAt(cfg, writer.State(), session.id, next)
      && LeasesHeld(LeasesOf(results)) && budget.weights.Keys == base - freed
      && checkpoints.items == SavedUpTo(before.checkpoints, cfg.manifest, session.id, start, next)
      && Aside(before.writer, writer.State(), session.id)
      && index.records == before.index
    }

    lemma GoingFirst(cfg: Config, session: MemorySession, start: nat, results: seq<LoadResult>)
      requires Delivery(cfg, start, results) && SessionReady(session) && Ready(cfg, Durable(), session.id, start)
      requires LeasesHeld(LeasesOf(results))
      ensures Going(cfg, session, Durable(), start, results, 0, map[], start, {}, budget.weights.Keys)
    {
      hide SessionReady, PendingOk, LeasesTraced, Delivery, LeasesHeld, DraftOk, CheckpointAt, Aside, SavedUpTo;
      NothingArrived(cfg, start, results);
      AsideReflexive(writer.State(), session.id);
      SavedUpToStarts(checkpoints.items, cfg.manifest, session.id, start);
    }

    lemma GoingTells(
      cfg: Config, session: MemorySession, before: Disk, start: nat, results: seq<LoadResult>, i: nat,
      pending: map<nat, LoadedSegment>, next: nat, freed: set<BudgetLease>, base: set<BudgetLease>)
      requires Going(cfg, session, before, start, results, i, pending, next, freed, base)
      ensures start <= next <= cfg.Count() && next !in pending && PendingOk(start, results, i, pending, next)
      ensures Delivery(cfg, start, results)
    {
    }

    // One result: keep it, write what is now in turn, or give up.
    method Turn(
      ctx: nat -> bool, polls: nat, ghost cfg: Config, manifest: Manifest, session: MemorySession,
      ghost before: Disk, ghost start: nat, results: seq<LoadResult>, i: nat,
      arrived: map<nat, LoadedSegment>, from: nat, ghost freedBefore: set<BudgetLease>, ghost base: set<BudgetLease>)
      returns (
        failed: Option<MergeError>, asked: nat, pending: map<nat, LoadedSegment>, next: nat,
        ghost freed: set<BudgetLease>)
      requires manifest == cfg.manifest && i < |results| && Ready(cfg, before, session.id, start)
      requires Going(cfg, session, before, start, results, i, arrived, from, freedBefore, base)
      modifies budget, LeasesOf(results), writer, session, session.draft.data, checkpoints
      ensures polls <= asked <= polls + 2 * (|arrived| + 1)
      ensures failed.Some? <==> results[i].Undelivered? || Refused(ctx, polls, asked)
      ensures results[i].Undelivered? ==> failed == Some(LoadFailure(results[i].error))
      ensures failed.Some? && results[i].Delivered? ==>
        StoppedAt(cfg, ctx, polls, from, next, failed.value) && InTurn(start, results, i + 1, next + 1)
      ensures failed.None? ==> from <= next && asked == polls + 2 * (next - from)
      ensures failed.None? ==> Going(cfg, session, before, start, results, i + 1, pending, next, freed, base)
      ensures failed.None? ==> next - start + |pending| == i + 1
      ensures failed.Some? ==> Returned(cfg, session, before, results, base, Failure(failed.value))
    {
      hide SessionReady, PendingOk, LeasesTraced, Delivery, LeasesHeld, DraftOk, CheckpointAt, Aside, SavedUpTo, Ends;
      hide StoppedAt, InTurn, Refused, Returned, LeasesOf;
      RefusedOnce(ctx, polls);
      match results[i]
      case Undelivered(problem) =>
        failed, asked, pending, next, freed := Some(LoadFailure(problem)), polls, arrived, from, freedBefore;
        SavedUpToChains(before.checkpoints, manifest, session.id, start, from, from);
        UndeliveredTraced(results, i, pending, freed);
        Abandon(cfg, before, start, failed.value, pending, results, i + 1, results[i + 1..], session,
                manifest.fileID, freed, base);
      case Delivered(_) =>
        failed, asked, pending, next, freed := Take(
          ctx, polls, cfg, manifest, session, before, start, results, i, arrived, from, freedBefore, base);
    }

    // pending[ordinal] = loaded, and the inner loop after it
    method Take(
      ctx: nat -> bool, polls: nat, ghost cfg: Config, manifest: Manifest, session: MemorySession,
      ghost before: Disk, ghost start: nat, results: seq<LoadResult>, i: nat,
      arrived: map<nat, LoadedSegment>, from: nat, ghost freedBefore: set<BudgetLease>, ghost base: set<BudgetLease>)
      returns (
        failed: Option<MergeError>, asked: nat, pending: map<nat, LoadedSegment>, next: nat,
        ghost freed: set<BudgetLease>)
      requires manifest == cfg.manifest && i < |results| && results[i].Delivered?
      requires Ready(cfg, before, session.id, start)
      requires Going(cfg, session, before, start, results, i, arrived, from, freedBefore, base)
      modifies budget, LeasesOf(results), writer, session, session.draft.data, checkpoints
      ensures polls <= asked <= polls + 2 * (|arrived| + 1)
      ensures failed.Some? <==> Refused(ctx, polls, asked)
      ensures failed.Some? ==>
        StoppedAt(cfg, ctx, polls, from, next, failed.value) && InTurn(start, results, i + 1, next + 1)
      ensures failed.None? ==> from <= next && asked == polls + 2 * (next - from)
      ensures failed.None? ==> Going(cfg, session, before, start, results, i + 1, pending, next, freed, base)
      ensures failed.None? ==> next - start + |pending| == i + 1
      ensures failed.Some? ==> Returned(cfg, session, before, results, base, Failure(failed.value))
    {
      hide SessionReady, PendingOk, LeasesTraced, Delivery, LeasesHeld, DraftOk, CheckpointAt, Aside, Refused;
      hide Ends, SavedUpTo, LeasesOf, StoppedAt, InTurn;
      var loaded := results[i].segment;
      ghost var leases, written := LeasesOf(results), writer.State();
      Arrival(cfg, start, results, i, arrived, from, freedBefore);
      failed, asked, pending, next, freed := Flush(
        ctx, polls, cfg, manifest, session, arrived[loaded.entry.ordinal := loaded], from, start,
        results, i + 1, freedBefore, leases, base);
      AsideTransitive(before.writer, written, writer.State(), session.id);
      if failed.Some? {
        StoppedAbandons(cfg, ctx, polls, from, next, failed.value);
        SavedUpToChains(before.checkpoints, manifest, session.id, start, from, from);
        Abandon(cfg, before, start, failed.value, pending, results, i + 1, results[i + 1..], session,
                manifest.fileID, freed, base);
      } else {
        SavedUpToChains(before.checkpoints, manifest, session.id, start, from, next);
      }
    }

    // After the last result.
    method Finish(
      ctx: nat -> bool, polls: nat, ghost cfg: Config, manifest: Manifest, session: MemorySession,
      ghost before: Disk, ghost start: nat, ghost results: seq<LoadResult>, resumed: bool,
      pending: map<nat, LoadedSegment>, next: nat, ghost freed: set<BudgetLease>, ghost base: set<BudgetLease>)
      returns (r: Result<MergeResult, MergeError>)
      requires manifest == cfg.manifest && env == cfg.env && Ready(cfg, before, session.id, start)
      requires Going(cfg, session, before, start, results, |results|, pending, next, freed, base)
      modifies budget, LeasesOf(results), writer, session, checkpoints, index
      ensures Returned(cfg, session, before, results, base, r)
      ensures next == cfg.Count() <==> Complete(cfg, start, results)
      ensures next != cfg.Count() ==> r == Failure(IncompleteResults)
      ensures next == cfg.Count() && r.Failure? ==> EndsLate(ctx, polls, polls, r.error)
      ensures r.Success? <==> Complete(cfg, start, results) && !Refused(ctx, polls, polls + 3)
      ensures r.Success? ==> r.value.resumed == resumed
    {
      hide SessionReady, PendingOk, LeasesTraced, Delivery, LeasesHeld, DraftOk, CheckpointAt, Aside, Refused;
      hide Ends, Complete, Outcome, SavedUpTo, EndsLate;
      ghost var full := Durable();
      AllWritten(cfg, start, results, pending, next);
      SavedUpToChains(before.checkpoints, manifest, session.id, start, next, next);
      TracedLeasesCover(results, |results|, pending, freed);
      if next != |manifest.segments| {
        r := Failure(IncompleteResults);
        Abandon(cfg, before, start, IncompleteResults, pending, results, |results|, [], session,
                manifest.fileID, freed, base);
      } else {
        ghost var leases := LeasesOf(results);
        assert budget.weights.Keys == base - leases && LeasesHeld(leases);
        r := Publish(ctx, polls, cfg, session, resumed, next);
        assert LeasesHeld(leases);
        PublishingEnds(cfg, before, full, Durable(), session.id, start, r);
      }
    }

    // The collecting loop of Merge and everything after it.
    method Collect(
      ctx: nat -> bool, askedBefore: nat, ghost cfg: Config, manifest: Manifest, session: MemorySession,
      start: nat, resumed: bool, results: seq<LoadResult>)
      returns (r: Result<MergeResult, MergeError>, ghost asked: nat)
      requires manifest == cfg.manifest && env == cfg.env && Delivery(cfg, start, results)
      requires SessionReady(session) && Ready(cfg, Durable(), session.id, start)
      requires LeasesHeld(LeasesOf(results))
      modifies budget, LeasesOf(results), writer, session, session.draft.data, checkpoints, index
      ensures Returned(cfg, session, old(Durable()), results, old(budget.weights.Keys), r)
      ensures askedBefore <= asked <= askedBefore + 2 * |results| + 3
      ensures r.Success? <==> Complete(cfg, start, results) && !Refused(ctx, askedBefore, asked)
      ensures start <= cfg.Count()
      ensures r.Success? ==> !Refused(ctx, askedBefore, askedBefore + 2 * (cfg.Count() - start) + 3)
      ensures r.Failure? ==> Because(cfg, ctx, askedBefore, start, results, r.error)
      ensures r.Success? ==> r.value.resumed == resumed
    {
      hide Because, InTurn, StoppedAt, EndsLate, PendingOk;
      hide Going, Ready, Delivery, LeasesHeld, SessionReady, Refused, Complete, Returned;
      ghost var base, before := budget.weights.Keys, Durable();
      ghost var freed: set<BudgetLease> := {};
      var polls, next := askedBefore, start;
      var pending: map<nat, LoadedSegment> := map[];
      GoingFirst(cfg, session, start, results);
      RefusedOnce(ctx, polls);
      for i := 0 to |results|
        invariant next >= start && polls == askedBefore + 2 * (next - start) && next - start + |pending| == i
        invariant !Refused(ctx, askedBefore, polls)
        invariant Going(cfg, session, before, start, results, i, pending, next, freed, base)
      {
        GoingTells(cfg, session, before, start, results, i, pending, next, freed, base);
        ghost var arrived, from := pending, next;
        var failed, pollsNow;
        failed, pollsNow, pending, next, freed := Turn(
          ctx, polls, cfg, manifest, session, before, start, results, i, pending, next, freed, base);
        RefusedMore(ctx, askedBefore, polls, pollsNow);
        if failed.Some? {
          if results[i].Undelivered? {
            NotComplete(cfg, start, results, i);
          }
          TurnReason(cfg, ctx, askedBefore, start, results, i, polls, arrived, from, next, failed.value);
          return Failure(failed.value), pollsNow;
        }
        polls := pollsNow;
      }
      GoingTells(cfg, session, before, start, results, |results|, pending, next, freed, base);
      asked := polls + 3;
      RefusedMore(ctx, askedBefore, polls, asked);
      ghost var n, left := next, pending;
      r := Finish(ctx, polls, cfg, manifest, session, before, start, results, resumed, pending, next, freed, base);
      if r.Failure? {
        FinishReason(cfg, ctx, askedBefore, start, results, polls, left, n, r.error);
      }
    }

    ghost function ConfigFor(manifest: Manifest): Config {
      Config(env, source, Compiled(manifest))
    }

    // Merge up to the call of loadAll.
    method Prepare(ctx: nat -> bool, manifest: Manifest)
      returns (r: Result<MemorySession, MergeError>, compiled: Manifest, start: nat, resumed: bool)
      requires writer.Valid() && NamesIssued(writer.State())
      modifies writer
      ensures writer.Valid()
      ensures r.Success? <==>
        Acceptable(manifest) && !ctx(0) && !ctx(1) && Opening(ConfigFor(manifest), old(Durable())).Some?
      ensures r.Failure? ==> Durable() == old(Durable()) && Refuses(r.error)
      ensures r.Failure? ==> RefusedBecause(ctx, manifest, ConfigFor(manifest), old(Durable()), r.error)
      ensures r.Success? ==>
        && compiled == Compiled(manifest)
        && resumed == (compiled.fileID in old(checkpoints.items))
        && fresh(r.value) && SessionReady(r.value)
        && var s := Opening(ConfigFor(manifest), old(Durable())).value;
           start == s.start && r.value.id == s.session && Durable() == s.disk
      ensures fresh(writer.buffers - old(writer.buffers))
      ensures r.Success? ==> r.value.draft.data in writer.buffers
    {
      hide NamesIssued, Opening, Begun, PlanFor, Compiled, Acceptable, Justified;
      var compilation := CompileManifest(manifest);
      if compilation.Failure? {
        return Failure(PlanRefused(BadManifest(compilation.error))), manifest, 0, false;
      }
      compiled := compilation.value;
      CompileIsIdempotent(manifest);
      CompiledHeader(manifest);
      OpeningIsBegun(ConfigFor(manifest), Durable());
      var stored := checkpoints.Load(ctx(0), compiled.fileID);
      if stored.None? {
        return Failure(ContextExpired), compiled, 0, false;
      }
      var planned := BuildPlan(compiled, stored.value);
      if planned.Failure? {
        return Failure(PlanRefused(planned.error)), compiled, 0, false;
      }
      var plan := planned.value;
      PlanIsPlanFor(compiled, env, source, stored.value, plan);
      var begun := writer.Begin(ctx(1), plan);
      if begun.Failure? {
        r := Failure(if begun.error.BeginExpired? then ContextExpired else SessionRefused);
        return r, compiled, 0, false;
      }
      return Result.Success(begun.value), compiled, plan.startOrdinal, stored.value.Some?;
    }

    // `results` is what loadAll would send for this plan; with an early error
    // nothing is loaded at all.
    method Merge(ctx: nat -> bool, manifest: Manifest, results: seq<LoadResult>)
      returns (r: Result<MergeResult, MergeError>, ghost asked: nat)
      requires DigestsAreHex(env) && writer.Valid() && NamesIssued(writer.State())
      requires Acceptable(manifest) ==> ConfigOk(ConfigFor(manifest)) && Trusted(ConfigFor(manifest), Durable())
      requires Acceptable(manifest) && Opening(ConfigFor(manifest), Durable()).Some? ==>
        Delivery(ConfigFor(manifest), Opening(ConfigFor(manifest), Durable()).value.start, results)
      requires LeasesHeld(LeasesOf(results))
      modifies budget, LeasesOf(results), writer, writer.buffers, checkpoints, index
      ensures writer.Valid() && LeasesHeld(LeasesOf(results))
      ensures r.Success? <==>
        && Acceptable(manifest) && Opening(ConfigFor(manifest), old(Durable())).Some?
        && Complete(ConfigFor(manifest), Opening(ConfigFor(manifest), old(Durable())).value.start, results)
        && !Refused(ctx, 0, asked)
      ensures asked <= 2 * |results| + 5
      ensures r.Failure? && Refuses(r.error) ==>
        && Durable() == old(Durable())
        && RefusedBecause(ctx, manifest, ConfigFor(manifest), old(Durable()), r.error)
      ensures r.Success? || !Refuses(r.error) ==>
        && Acceptable(manifest) && Opening(ConfigFor(manifest), old(Durable())).Some?
        && budget.weights.Keys == old(budget.weights.Keys) - LeasesOf(results)
        && (forall lease :: lease in LeasesOf(results) ==> lease.released)
        && var s := Opening(ConfigFor(manifest), old(Durable())).value;
           && Ends(ConfigFor(manifest), s.disk, Durable(), s.session, r)
           && !ctx(0) && !ctx(1) && s.start <= |manifest.segments|
           && (r.Success? ==> !Refused(ctx, 2, 2 * (|manifest.segments| - s.start) + 5))
           && (forall e :: r == Failure(e) <==> Because(ConfigFor(manifest), ctx, 2, s.start, results, e))
      ensures r.Success? ==> r.value.resumed == (ConfigFor(manifest).FileID() in old(checkpoints.items))
    {
      hide SessionReady, Delivery, LeasesHeld, Refused, Ends, Complete;
      hide Start, Trusted, Ready, Opening, Acceptable, Compiled, Because, RefusedBecause, CheckpointUsable;
      RefusedOnce(ctx, 0);
      var entry, compiled, start, resumed := Prepare(ctx, manifest);
      if entry.Failure? {
        return Failure(entry.error), 2;
      }
      var session := entry.value;
      OpeningIsReady(ConfigFor(manifest), old(Durable()));
      CompiledHeader(manifest);
      ghost var begun := Durable();
      r, asked := Collect(ctx, 2, ConfigFor(manifest), compiled, session, start, resumed, results);
      RefusedOver(ctx, 0, 2, asked);
      ExactReason(ConfigFor(manifest), ctx, 2, start, results, r);
      EndsAfterLoading(ConfigFor(manifest), begun, Durable(), session.id, r);
      NoneOutstanding(LeasesOf(results));
    }
  }
}
