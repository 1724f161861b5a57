// segmentmerge/worker.go and checksum.go: loading and verifying one segment.
module Loading {
  import opened Prelude
  import opened Manifests
  import opened Budgets

  // What the merger takes from elsewhere: SHA-256 rendered as hex, and a gzip
  // decoder that may reject its input. Nothing is assumed about either here.
  datatype Env = Env(digest: bytes -> string, gunzip: bytes -> Option<bytes>)

  // hex.EncodeToString of 32 bytes
  ghost predicate DigestsAreHex(env: Env) {
    forall data: bytes :: IsDigestText(env.digest(data))
  }

  type Source = map<string, bytes>

  datatype LoadError =
    | BudgetExceeded
    | ContextEnded
    | SegmentNotFound
    | SourceFailed
    | StoredSizeMismatch
    | DecodeFailed
    | LogicalSizeMismatch
    | DigestMismatch

  // verifyLogicalSegment
  function VerifyLogical(env: Env, s: Segment, data: bytes): Option<LoadError> {
    if |data| != s.Weight() then Some(LogicalSizeMismatch)
    else if env.digest(data) != s.digest then Some(DigestMismatch)
    else None
  }

  // The logical bytes of a segment, if its stored bytes pass every check.
  function Content(env: Env, source: Source, s: Segment): (r: Result<bytes, LoadError>)
    ensures r.Success? ==> Verified(env, source, s, r.value)
  {
    if s.id !in source then Failure(SegmentNotFound)
    else
      var stored := source[s.id];
      if |stored| != s.storedSize as int then Failure(StoredSizeMismatch)
      else
        var logical := if s.encoding == ENCODING_GZIP then env.gunzip(stored) else Some(stored);
        if logical.None? then Failure(DecodeFailed)
        else
          var problem := VerifyLogical(env, s, logical.value);
          if problem.Some? then Failure(problem.value) else Success(logical.value)
  }

  // What a segment's stored bytes are decoded to: themselves, or what gzip makes of them.
  ghost predicate DecodesTo(env: Env, s: Segment, stored: bytes, data: bytes) {
    if s.encoding == ENCODING_GZIP then env.gunzip(stored) == Some(data) else stored == data
  }

  // `data` is what the source holds for this segment, and all of it is as declared.
  ghost predicate Verified(env: Env, source: Source, s: Segment, data: bytes) {
    && s.id in source && |source[s.id]| == s.storedSize as int && DecodesTo(env, s, source[s.id], data)
    && |data| == s.logicalSize as int && env.digest(data) == s.digest
  }

  // A segment loads exactly when its stored bytes decode to the declared ones.
  lemma ContentIff(env: Env, source: Source, s: Segment)
    ensures forall data :: Content(env, source, s) == Result.Success(data) <==> Verified(env, source, s, data)
    ensures s.encoding == ENCODING_RAW ==> (Content(env, source, s).Success? <==>
      && s.id in source && |source[s.id]| == s.storedSize as int == s.logicalSize as int
      && env.digest(source[s.id]) == s.digest)
    ensures s.encoding == ENCODING_RAW && Content(env, source, s).Success? ==>
      Content(env, source, s).value == source[s.id]
    ensures s.encoding == ENCODING_GZIP ==> (Content(env, source, s).Success? <==>
      && s.id in source && |source[s.id]| == s.storedSize as int && env.gunzip(source[s.id]).Some?
      && |env.gunzip(source[s.id]).value| == s.logicalSize as int
      && env.digest(env.gunzip(source[s.id]).value) == s.digest)
    ensures s.encoding == ENCODING_GZIP && Content(env, source, s).Success? ==>
      env.gunzip(source[s.id]) == Some(Content(env, source, s).value)
  {
  }

  // The reason given for a failure is the first check that fails.
  ghost predicate FailsBecause(env: Env, source: Source, s: Segment, e: LoadError) {
    match e
    case SegmentNotFound => s.id !in source
    case StoredSizeMismatch => s.id in source && |source[s.id]| != s.storedSize as int
    case DecodeFailed =>
      && s.id in source && |source[s.id]| == s.storedSize as int
      && s.encoding == ENCODING_GZIP && env.gunzip(source[s.id]).None?
    case LogicalSizeMismatch =>
      && s.id in source && |source[s.id]| == s.storedSize as int
      && exists data :: DecodesTo(env, s, source[s.id], data) && |data| != s.logicalSize as int
    case DigestMismatch =>
      && s.id in source && |source[s.id]| == s.storedSize as int
      && exists data :: DecodesTo(env, s, source[s.id], data)
           && |data| == s.logicalSize as int && env.digest(data) != s.digest
    case _ => false
  }

  lemma FailureIff(env: Env, source: Source, s: Segment, e: LoadError)
    ensures Content(env, source, s) == Failure(e) <==> FailsBecause(env, source, s, e)
  {
    if s.id in source && (s.encoding == ENCODING_GZIP ==> env.gunzip(source[s.id]).Some?) {
      var data := if s.encoding == ENCODING_GZIP then env.gunzip(source[s.id]).value else source[s.id];
      assert DecodesTo(env, s, source[s.id], data);
    }
  }

  datatype LoadedSegment = LoadedSegment(entry: PlanEntry, data: bytes, lease: BudgetLease)

  datatype LoadOutcome =
    | Loaded(segment: LoadedSegment)
    | LoadFailed(error: LoadError)
    | Waits(generation: nat)

  class Loader {
    const env: Env
    const source: Source
    const budget: ByteBudget

    constructor (env: Env, source: Source, budget: ByteBudget)
      ensures this.env == env && this.source == source && this.budget == budget
    {
      this.env, this.source, this.budget := env, source, budget;
    }

    // One attempt at Load. A caller told to wait has taken nothing; a failure
    // of any kind has given back what it took; success hands the lease over.
    // `unreadable` is whether Open, ReadAll or Close reports an error, `ended`
    // whether a wait is cut short by the end of the context.
    method Load(entry: PlanEntry, unreadable: bool, ended: bool) returns (r: LoadOutcome)
      requires budget.Valid()
      modifies budget
      ensures budget.Valid()
      ensures r.Waits? ==> budget.State() == old(budget.State()) && r.generation == budget.generation
      ensures var room := Fits(old(budget.State()), entry.memoryWeight as int);
        && (r.Waits? <==> 1 <= entry.memoryWeight <= budget.limit && !room && !ended)
        && (r == LoadFailed(ContextEnded) <==> 1 <= entry.memoryWeight <= budget.limit && !room && ended)
        && (r.Loaded? <==>
              && 1 <= entry.memoryWeight <= budget.limit && room && !unreadable
              && entry.segment.logicalSize <= entry.memoryWeight
              && exists data :: Verified(env, source, entry.segment, data))
        && (r == LoadFailed(SourceFailed) <==> 1 <= entry.memoryWeight <= budget.limit && room && unreadable)
        && (r == LoadFailed(BudgetExceeded) <==>
              || !(1 <= entry.memoryWeight <= budget.limit)
              || (&& room && !unreadable && entry.memoryWeight < entry.segment.logicalSize
                  && exists data :: Verified(env, source, entry.segment, data)))
      ensures forall e :: e !in {BudgetExceeded, ContextEnded, SourceFailed} ==>
        (r == LoadFailed(e) <==>
           && 1 <= entry.memoryWeight <= budget.limit && Fits(old(budget.State()), entry.memoryWeight as int)
           && !unreadable && FailsBecause(env, source, entry.segment, e))
      ensures r == LoadFailed(ContextEnded) ==> budget.State() == old(budget.State())
      ensures !r.Loaded? ==> budget.weights == old(budget.weights) && budget.marks == old(budget.marks)
      ensures r.Loaded? ==>
        && Verified(env, source, entry.segment, r.segment.data)
        && r.segment.entry == entry && fresh(r.segment.lease)
        && budget.weights == old(budget.weights)[r.segment.lease := entry.memoryWeight as int]
        && budget.marks == old(budget.marks)[r.segment.lease := |r.segment.data|]
    {
      var attempt := budget.TryAcquire(entry.memoryWeight);
      match attempt
      case Exceeded => r := LoadFailed(BudgetExceeded);
      case MustWait(generation) => r := if ended then LoadFailed(ContextEnded) else Waits(generation);
      case Granted(lease) => r := LoadHolding(entry, unreadable, lease);
    }

    // Load with the reservation in hand; the flag is what the deferred release reads.
    method LoadHolding(entry: PlanEntry, unreadable: bool, lease: BudgetLease) returns (r: LoadOutcome)
      requires budget.Valid() && lease.budget == budget && lease in budget.weights && lease.resident == 0
      requires !lease.released && lease.weight == entry.memoryWeight
      modifies budget, lease
      ensures budget.Valid() && !r.Waits?
      ensures r.LoadFailed? ==>
        budget.weights == old(budget.weights) - {lease} && budget.marks == old(budget.marks) - {lease}
      ensures r.Loaded? ==>
        && Verified(env, source, entry.segment, r.segment.data)
        && r.segment.entry == entry && r.segment.lease == lease && budget.weights == old(budget.weights)
        && budget.marks == old(budget.marks)[lease := |r.segment.data|]
      ensures r.Loaded? <==>
        && !unreadable && entry.segment.logicalSize <= entry.memoryWeight
        && exists data :: Verified(env, source, entry.segment, data)
      ensures r == LoadFailed(SourceFailed) <==> unreadable
      ensures r == LoadFailed(BudgetExceeded) <==>
        && !unreadable && entry.memoryWeight < entry.segment.logicalSize
        && exists data :: Verified(env, source, entry.segment, data)
      ensures forall e :: e !in {BudgetExceeded, SourceFailed} ==>
        (r == LoadFailed(e) <==> !unreadable && FailsBecause(env, source, entry.segment, e))
    {
      var releaseOnError := true;
      var content := if unreadable then Failure(SourceFailed) else Content(env, source, entry.segment);
      ContentIff(env, source, entry.segment);
      forall e ensures Content(env, source, entry.segment) == Failure(e) <==>
        FailsBecause(env, source, entry.segment, e)
      {
        FailureIff(env, source, entry.segment, e);
      }
      hide Content, Verified, FailsBecause;
      if content.Failure? {
        r := LoadFailed(content.error);
      } else {
        var ok := lease.MarkResident(|content.value| as int64);
        if ok {
          releaseOnError := false;
          r := Loaded(LoadedSegment(entry, content.value, lease));
        } else {
          r := LoadFailed(BudgetExceeded);
        }
      }
      if releaseOnError {
        var _ := lease.Release();
      }
    }
  }
}
