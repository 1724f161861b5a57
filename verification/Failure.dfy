// classifyFailure of operation/runner.go, over the errors a merge returns.
module Failures {
  import opened Prelude
  import opened Manifests
  import opened Loading
  import opened Mergers
  import opened MergeMachine
  import opened Policies

  // The integrity errors: the bytes are not those the manifest declares.
  predicate Damaged(e: LoadError) {
    e.StoredSizeMismatch? || e.LogicalSizeMismatch? || e.DigestMismatch?
  }

  // Over the in-memory stores an append, a save, a commit, an index entry and a
  // clearing fail with the context's own error and no other.
  function Classify(e: MergeError): FailureClass {
    match e
    case ContextExpired => Cancelled
    case PlanRefused(BadManifest(_)) => Permanent
    case PlanRefused(CheckpointMismatch) => Transient
    case SessionRefused => Transient
    case LoadFailure(problem) =>
      if problem.ContextEnded? then Cancelled else if Damaged(problem) then Permanent else Transient
    case IncompleteResults => Transient
    case WriteFailure(_) => Cancelled
    case SaveFailure => Cancelled
    case CommitFailure => Cancelled
    case IndexFailure => Cancelled
    case ClearFailure => Cancelled
  }

  // The merge wrote all that was in turn before result i, the first error
  // message, and the context let it.
  ghost predicate Hears(ctx: nat -> bool, first: nat, start: nat, results: seq<LoadResult>, problem: LoadError) {
    exists i: nat, n: nat :: HearsAt(ctx, first, start, results, problem, i, n)
  }

  ghost predicate HearsAt(
    ctx: nat -> bool, first: nat, start: nat, results: seq<LoadResult>, problem: LoadError, i: nat, n: nat)
  {
    && Halt(results, i) && Frontier(start, results, i, n)
    && i < |results| && results[i] == Undelivered(problem) && !Refused(ctx, first, first + 2 * (n - start))
  }

  // How a merge that had begun to load is classed, said of the results and the
  // context alone: as permanent when it hears of damaged bytes, as cancelled
  // when it hears that a load was cut short or is itself refused by its context.
  lemma ClassIff(
    cfg: Config, ctx: nat -> bool, first: nat, start: nat, results: seq<LoadResult>, e: MergeError)
    requires Because(cfg, ctx, first, start, results, e)
    ensures Classify(e) == Permanent <==>
      || Hears(ctx, first, start, results, StoredSizeMismatch)
      || Hears(ctx, first, start, results, LogicalSizeMismatch)
      || Hears(ctx, first, start, results, DigestMismatch)
    ensures Classify(e) == Cancelled <==>
      Hears(ctx, first, start, results, ContextEnded) || RefusedOnTheWay(cfg, ctx, first, start, results)
  {
    hide Halt, Frontier, Refused, FirstRefusal;
    forall problem ensures Hears(ctx, first, start, results, problem) <==> e == LoadFailure(problem) {
      HearsIff(cfg, ctx, first, start, results, e, problem);
    }
    RefusedIff(cfg, ctx, first, start, results, e);
  }

  // How a merge that never came to load is classed.
  lemma EarlyClassIff(ctx: nat -> bool, manifest: Manifest, cfg: Config, disk: Disk, e: MergeError)
    requires Acceptable(manifest) ==> cfg.manifest.totalSize >= 0
    requires RefusedBecause(ctx, manifest, cfg, disk, e)
    ensures Classify(e) == Permanent <==> !Acceptable(manifest)
    ensures Classify(e) == Cancelled <==> Acceptable(manifest) && (ctx(0) || (CheckpointUsable(cfg, disk) && ctx(1)))
  {
    hide Acceptable, CheckpointUsable, Opening;
  }

  lemma HearsIff(
    cfg: Config, ctx: nat -> bool, first: nat, start: nat, results: seq<LoadResult>, e: MergeError, problem: LoadError)
    requires Because(cfg, ctx, first, start, results, e)
    ensures Hears(ctx, first, start, results, problem) <==> e == LoadFailure(problem)
  {
    hide Halt, Frontier, Refused, FirstRefusal;
    if Hears(ctx, first, start, results, problem) {
      var i: nat, n: nat :| HearsAt(ctx, first, start, results, problem, i, n);
      HaltFits(start, results, i, n);
      assert BecauseAt(cfg, ctx, first, start, results, i, n, LoadFailure(problem));
      OneReason(cfg, ctx, first, start, results, e, LoadFailure(problem));
    }
    if e == LoadFailure(problem) {
      var i: nat, n: nat :| BecauseAt(cfg, ctx, first, start, results, i, n, e);
      HaltFits(start, results, i, n);
      assert HearsAt(ctx, first, start, results, problem, i, n);
    }
  }

  // A question of the collecting loop, or of the last three steps where the
  // merge comes to them, met an expired context.
  ghost predicate RefusedOnTheWay(
    cfg: Config, ctx: nat -> bool, first: nat, start: nat, results: seq<LoadResult>)
  {
    exists i: nat, n: nat :: RefusedAt(cfg, ctx, first, start, results, i, n)
  }

  ghost predicate RefusedAt(
    cfg: Config, ctx: nat -> bool, first: nat, start: nat, results: seq<LoadResult>, i: nat, n: nat)
  {
    && Halt(results, i) && Frontier(start, results, i, n) && start <= n
    && Refused(ctx, first, first + 2 * (n - start) + if i == |results| && n == cfg.Count() then 3 else 0)
  }

  // Everything but an error message and a missing result is a refusal.
  lemma RefusedIff(
    cfg: Config, ctx: nat -> bool, first: nat, start: nat, results: seq<LoadResult>, e: MergeError)
    requires Because(cfg, ctx, first, start, results, e)
    ensures RefusedOnTheWay(cfg, ctx, first, start, results) <==> !e.LoadFailure? && !e.IncompleteResults?
    ensures e.WriteFailure? || e.SaveFailure? || e.LoadFailure? || e.IncompleteResults?
         || e.CommitFailure? || e.IndexFailure? || e.ClearFailure?
  {
    hide Halt, Frontier;
    var i: nat, n: nat :| BecauseAt(cfg, ctx, first, start, results, i, n, e);
    HaltFits(start, results, i, n);
    RefusalAt(cfg, ctx, first, start, results, i, n, e);
    if RefusedOnTheWay(cfg, ctx, first, start, results) {
      var j: nat, m: nat :| RefusedAt(cfg, ctx, first, start, results, j, m);
      OneHalt(results, i, j);
      OneFrontier(start, results, i, n, m);
    }
  }

  lemma RefusalAt(
    cfg: Config, ctx: nat -> bool, first: nat, start: nat, results: seq<LoadResult>, i: nat, n: nat, e: MergeError)
    requires start <= n && i <= |results| && BecauseAt(cfg, ctx, first, start, results, i, n, e)
    ensures RefusedAt(cfg, ctx, first, start, results, i, n) <==> !e.LoadFailure? && !e.IncompleteResults?
    ensures e.WriteFailure? || e.SaveFailure? || e.LoadFailure? || e.IncompleteResults?
         || e.CommitFailure? || e.IndexFailure? || e.ClearFailure?
  {
    hide Halt, Frontier;
  }
}
