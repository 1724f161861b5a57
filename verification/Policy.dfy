// policy/policy.go: admission of a merge and the retry schedule.
module Policies {
  import opened Prelude
  import opened Manifests

  datatype Load = Load(activeOperations: int, residentBytes: int64)

  datatype Limits = Limits(
    maxActiveOperations: int, maxManifestBytes: int64, maxSegments: int, maxResidentBytes: int64,
    maxAttempts: int, baseBackoff: int64, maxBackoff: int64)
  {
    predicate Positive() {
      && maxActiveOperations > 0 && maxManifestBytes > 0 && maxSegments > 0 && maxResidentBytes > 0
      && maxAttempts > 0 && baseBackoff > 0 && maxBackoff > 0
    }
  }

  // Durations are in nanoseconds.
  const DEFAULT_LIMITS := Limits(
    16, 0x1_0000_0000, 4096, 0x2000_0000, 4, 100_000_000, 5_000_000_000)

  // NewAdmission: every limit that is not positive takes its default.
  function NewAdmission(l: Limits): (r: Limits)
    ensures r.Positive()
    ensures l.maxActiveOperations <= 0 ==> r.maxActiveOperations == 16
    ensures l.maxManifestBytes <= 0 ==> r.maxManifestBytes == 4 * 1024 * 1024 * 1024
    ensures l.maxSegments <= 0 ==> r.maxSegments == 4096
    ensures l.maxResidentBytes <= 0 ==> r.maxResidentBytes == 512 * 1024 * 1024
    ensures l.maxAttempts <= 0 ==> r.maxAttempts == 4
    ensures l.baseBackoff <= 0 ==> r.baseBackoff == 100 * 1_000_000
    ensures l.maxBackoff <= 0 ==> r.maxBackoff == 5 * 1_000_000_000
    ensures l.maxActiveOperations > 0 ==> r.maxActiveOperations == l.maxActiveOperations
    ensures l.maxManifestBytes > 0 ==> r.maxManifestBytes == l.maxManifestBytes
    ensures l.maxSegments > 0 ==> r.maxSegments == l.maxSegments
    ensures l.maxResidentBytes > 0 ==> r.maxResidentBytes == l.maxResidentBytes
    ensures l.maxAttempts > 0 ==> r.maxAttempts == l.maxAttempts
    ensures l.baseBackoff > 0 ==> r.baseBackoff == l.baseBackoff
    ensures l.maxBackoff > 0 ==> r.maxBackoff == l.maxBackoff
  {
    var d := DEFAULT_LIMITS;
    Limits(
      if l.maxActiveOperations <= 0 then d.maxActiveOperations else l.maxActiveOperations,
      if l.maxManifestBytes <= 0 then d.maxManifestBytes else l.maxManifestBytes,
      if l.maxSegments <= 0 then d.maxSegments else l.maxSegments,
      if l.maxResidentBytes <= 0 then d.maxResidentBytes else l.maxResidentBytes,
      if l.maxAttempts <= 0 then d.maxAttempts else l.maxAttempts,
      if l.baseBackoff <= 0 then d.baseBackoff else l.baseBackoff,
      if l.maxBackoff <= 0 then d.maxBackoff else l.maxBackoff)
  }

  // ---------- Admission ----------

  datatype Reason =
    | TooManyOperations
    | TooManyResidentBytes
    | ManifestSizeOutOfRange
    | SegmentCountOutOfRange
    | SegmentTooLarge
    | Admitted

  datatype Decision = Decision(
    allowed: bool, reason: Reason, concurrency: int, memoryLimit: int64, estimatedWeight: int64)

  // The smallest k with n <= k * k, searched upwards from k.
  function CeilSqrtFrom(n: nat, k: nat): (r: nat)
    requires k == 0 || (k - 1) * (k - 1) < n
    ensures n <= r * r && (r == 0 || (r - 1) * (r - 1) < n) && r >= k
    decreases n - k
  {
    if n <= k * k then k
    else
      assert k < n;
      CeilSqrtFrom(n, k + 1)
  }

  // The square root, rounded up.
  function CeilSqrt(n: nat): (r: nat)
    ensures n <= r * r && (n > 0 ==> r > 0 && (r - 1) * (r - 1) < n)
  {
    CeilSqrtFrom(n, 0)
  }

  function Peak(segments: seq<Segment>): (r: int64)
    ensures r >= 0 && forall s :: s in segments ==> s.logicalSize <= r
    ensures r > 0 ==> exists s :: s in segments && s.logicalSize == r
  {
    if segments == [] then 0
    else
      var last := segments[|segments| - 1].logicalSize;
      var before := Peak(segments[..|segments| - 1]);
      if last > before then last else before
  }

  function Min(a: int, b: int): int {
    if a < b then a else b
  }

  function Max(a: int, b: int): int {
    if a > b then a else b
  }

  function Available(limits: Limits, load: Load): int64 {
    Wrap(limits.maxResidentBytes as int - load.residentBytes as int)
  }

  // Admission.Evaluate
  function Decide(limits: Limits, m: Manifest, load: Load): Decision {
    var refused := (reason: Reason) => Decision(false, reason, 1, limits.maxResidentBytes, 0);
    if load.activeOperations >= limits.maxActiveOperations then refused(TooManyOperations)
    else if load.residentBytes >= limits.maxResidentBytes then refused(TooManyResidentBytes)
    else if m.totalSize <= 0 || m.totalSize > limits.maxManifestBytes then refused(ManifestSizeOutOfRange)
    else if |m.segments| == 0 || |m.segments| > limits.maxSegments then refused(SegmentCountOutOfRange)
    else
      var peak, available := Peak(m.segments), Available(limits, load);
      if peak > available then refused(SegmentTooLarge)
      else
        var byMemory := available as int / Max(peak as int, 1);
        var bySegments := CeilSqrt(|m.segments|);
        Decision(true, Admitted, Min(8, Max(1, Min(byMemory, bySegments))), available, peak)
  }

  method Evaluate(limits: Limits, m: Manifest, load: Load) returns (decision: Decision)
    ensures decision == Decide(limits, m, load)
  {
    decision := Decision(false, TooManyOperations, 1, limits.maxResidentBytes, 0);
    if load.activeOperations >= limits.maxActiveOperations {
      return;
    }
    if load.residentBytes >= limits.maxResidentBytes {
      return decision.(reason := TooManyResidentBytes);
    }
    if m.totalSize <= 0 || m.totalSize > limits.maxManifestBytes {
      return decision.(reason := ManifestSizeOutOfRange);
    }
    if |m.segments| == 0 || |m.segments| > limits.maxSegments {
      return decision.(reason := SegmentCountOutOfRange);
    }
    var peak: int64 := 0;
    for i := 0 to |m.segments|
      invariant peak == Peak(m.segments[..i])
    {
      assert m.segments[..i + 1][..i] == m.segments[..i];
      if m.segments[i].logicalSize > peak {
        peak := m.segments[i].logicalSize;
      }
    }
    assert m.segments[..|m.segments|] == m.segments;
    var available := Available(limits, load);
    if peak > available {
      return decision.(reason := SegmentTooLarge);
    }
    var byMemory := available as int / Max(peak as int, 1);
    var bySegments := CeilSqrt(|m.segments|);
    var concurrency := Min(8, Max(1, Min(byMemory, bySegments)));
    return Decision(true, Admitted, concurrency, available, peak);
  }

  predicate WithinLimits(limits: Limits, m: Manifest, load: Load) {
    && load.activeOperations < limits.maxActiveOperations
    && 0 < m.totalSize <= limits.maxManifestBytes
    && 1 <= |m.segments| <= limits.maxSegments
    && forall s :: s in m.segments ==> s.Weight() + load.residentBytes as int <= limits.maxResidentBytes as int
  }

  // Who is admitted, and with what: the concurrency is the largest that keeps
  // the workers' peak segments within the memory limit and stays within eight
  // and the rounded-up square root of the segment count.
  lemma AdmissionMeansRoom(limits: Limits, m: Manifest, load: Load)
    requires limits.Positive() && load.residentBytes >= 0
    requires forall s :: s in m.segments ==> s.logicalSize > 0
    ensures var d := Decide(limits, m, load);
      && (d.allowed <==> WithinLimits(limits, m, load))
      && (d.allowed ==>
            && 1 <= d.concurrency <= 8 && d.concurrency <= CeilSqrt(|m.segments|)
            && d.memoryLimit as int == limits.maxResidentBytes as int - load.residentBytes as int
            && (forall s :: s in m.segments ==> s.Weight() <= d.estimatedWeight as int)
            && (exists s :: s in m.segments && s.Weight() == d.estimatedWeight as int)
            && d.concurrency * d.estimatedWeight as int <= d.memoryLimit as int
            && (d.concurrency < 8 && d.concurrency < CeilSqrt(|m.segments|) ==>
                  (d.concurrency + 1) * d.estimatedWeight as int > d.memoryLimit as int))
  {
    var peak, available := Peak(m.segments), Available(limits, load);
    if m.segments != [] {
      assert m.segments[0] in m.segments;
      if peak <= available {
        Quotient(available as int, peak as int);
        QuotientBound(available as int, peak as int, Decide(limits, m, load).concurrency);
      }
    }
  }

  lemma Quotient(a: int, b: int)
    requires 0 < b <= a
    ensures a / b >= 1 && (a / b) * b <= a < (a / b + 1) * b
  {
  }

  lemma QuotientBound(a: int, b: int, c: int)
    requires 0 < b <= a
    ensures 0 <= c <= a / b ==> c * b <= a
    ensures c >= a / b ==> (c + 1) * b > a
  {
    Quotient(a, b);
    if c >= a / b {
      assert (c + 1) * b >= (a / b + 1) * b;
    } else if c >= 0 {
      assert c * b <= (a / b) * b;
    }
  }

  // ---------- Retries ----------

  datatype FailureClass = Transient | Permanent | Cancelled

  datatype RetryDecision = RetryDecision(retry: bool, after: int64, class': FailureClass)

  function Pow2(n: nat): (r: nat)
    ensures r >= 1
  {
    if n == 0 then 1 else 2 * Pow2(n - 1)
  }

  // time.Duration(1 << n)
  function ShiftOne(n: nat): int64 {
    if n < 64 then Wrap(Pow2(n)) else 0
  }

  // BaseBackoff * time.Duration(1 << maxInt(0, attempt - 1)), capped
  function Delay(base: int64, cap: int64, attempt: int): int64 {
    var delay := Wrap(base as int * ShiftOne(Max(0, attempt - 1)) as int);
    if delay > cap then cap else delay
  }

  // Admission.Retry
  function Retry(limits: Limits, attempt: int, class': FailureClass): RetryDecision {
    if class'.Cancelled? || class'.Permanent? || attempt >= limits.maxAttempts then RetryDecision(false, 0, class')
    else RetryDecision(true, Delay(limits.baseBackoff, limits.maxBackoff, attempt), class')
  }

  // Only a transient failure with attempts left is retried.
  lemma RetryIff(limits: Limits, attempt: int, class': FailureClass)
    ensures var r := Retry(limits, attempt, class');
      && (r.retry <==> class' == Transient && attempt < limits.maxAttempts)
      && r.class' == class' && r.after <= (if r.retry then limits.maxBackoff else 0)
  {
  }

  lemma {:induction false} Pow2Monotone(m: nat, n: nat)
    requires m <= n
    ensures Pow2(m) <= Pow2(n)
  {
    if m == n {
    } else {
      Pow2Monotone(m, n - 1);
    }
  }

  lemma {:induction false} Pow2Sum(m: nat, n: nat)
    ensures Pow2(m + n) == Pow2(m) * Pow2(n)
  {
    if n == 0 {
    } else {
      assert m + n - 1 == m + (n - 1);
      Pow2Sum(m, n - 1);
    }
  }

  lemma PowProduct(m: nat, n: nat, x: int, y: int)
    requires Pow2(m) == x && Pow2(n) == y
    ensures Pow2(m + n) == x * y
  {
    Pow2Sum(m, n);
  }

  lemma Pow63()
    ensures Pow2(63) == MAX_INT64 + 1
  {
    assert Pow2(7) == 128;
    hide Pow2;
    PowProduct(7, 7, 128, 128);
    PowProduct(14, 7, 0x4000, 0x80);
    PowProduct(21, 21, 0x20_0000, 0x20_0000);
    PowProduct(42, 21, 0x400_0000_0000, 0x20_0000);
  }

  // The schedule the policy describes.
  function Backoff(base: int64, cap: int64, attempt: nat): int
    requires attempt >= 1
  {
    Min(cap as int, base as int * Pow2(attempt - 1))
  }

  lemma ShiftIsExact(n: nat)
    requires Pow2(n) <= MAX_INT64
    ensures ShiftOne(n) as int == Pow2(n)
  {
    hide Wrap;
    Pow63();
    WrapInside(Pow2(n));
    if n >= 63 {
      Pow2Monotone(63, n);
    }
  }

  // The product the code computes, where the shift is exact.
  lemma ProductIsExact(base: int64, n: nat)
    requires base > 0 && base as int * Pow2(n) <= MAX_INT64
    ensures base as int * ShiftOne(n) as int == base as int * Pow2(n)
  {
    FactorBelowProduct(base as int, Pow2(n));
    ShiftIsExact(n);
  }

  lemma WrapInside(x: int)
    requires 0 <= x <= MAX_INT64
    ensures Wrap(x) as int == x
  {
  }

  lemma DelayWithoutOverflow(base: int64, cap: int64, attempt: nat)
    requires base > 0 && attempt >= 1 && base as int * Pow2(attempt - 1) <= MAX_INT64
    ensures Delay(base, cap, attempt) as int == Backoff(base, cap, attempt)
  {
    hide Wrap, ShiftOne, Pow2;
    FactorBelowProduct(base as int, Pow2(attempt - 1));
    ProductIsExact(base, attempt - 1);
    WrapInside(base as int * Pow2(attempt - 1));
  }

  lemma FactorBelowProduct(x: int, y: int)
    requires x >= 1 && y >= 1
    ensures x <= x * y && y <= x * y
  {
  }

  lemma WrapKeepsParity(x: int)
    ensures Wrap(x) as int % 2 == x % 2
  {
  }

  // Once the product no longer fits, the wrapped delay is even and so cannot
  // be the largest duration, which is what an uncapped schedule would ask for.
  lemma DelayWithOverflow(base: int64, attempt: nat)
    requires base > 0 && attempt >= 1 && base as int * Pow2(attempt - 1) > MAX_INT64
    ensures Delay(base, MAX_INT64 as int64, attempt) as int != Backoff(base, MAX_INT64 as int64, attempt)
  {
    hide Wrap;
    var n := attempt - 1;
    assert n >= 1;
    var shift := ShiftOne(n) as int;
    if n < 64 {
      assert Pow2(n) == 2 * Pow2(n - 1);
      WrapKeepsParity(Pow2(n));
    }
    assert shift % 2 == 0;
    EvenProduct(base as int, shift);
    WrapKeepsParity(base as int * shift);
  }

  lemma EvenProduct(x: int, y: int)
    requires y % 2 == 0
    ensures (x * y) % 2 == 0
  {
    assert x * y == 2 * (x * (y / 2));
  }

  // A delay follows the schedule for every cap exactly when doubling the base
  // that often stays within int64.
  lemma DelayFollowsSchedule(base: int64, attempt: nat)
    requires base > 0 && attempt >= 1
    ensures base as int * Pow2(attempt - 1) <= MAX_INT64 <==>
      forall cap: int64 :: cap > 0 ==> Delay(base, cap, attempt) as int == Backoff(base, cap, attempt)
  {
    if base as int * Pow2(attempt - 1) <= MAX_INT64 {
      forall cap: int64 | cap > 0 ensures Delay(base, cap, attempt) as int == Backoff(base, cap, attempt) {
        DelayWithoutOverflow(base, cap, attempt);
      }
    } else {
      DelayWithOverflow(base, attempt);
    }
  }

  // For one given cap the overflow may go unnoticed: the delay is right exactly
  // when the product fits or what it wraps to still reaches the cap.
  lemma DelayForOneCap(base: int64, cap: int64, attempt: nat)
    requires base > 0 && cap > 0 && attempt >= 1
    ensures var exact := base as int * Pow2(attempt - 1);
      Delay(base, cap, attempt) as int == Backoff(base, cap, attempt) <==> exact <= MAX_INT64 || Wrap(exact) >= cap
  {
    if base as int * Pow2(attempt - 1) <= MAX_INT64 {
      DelayWithoutOverflow(base, cap, attempt);
    }
    DelayWraps(base, cap, attempt);
    hide Wrap, ShiftOne, Pow2;
  }

  // Whatever the attempt, the delay is the smaller of the cap and the doubled
  // base as int64 holds it.
  lemma DelayWraps(base: int64, cap: int64, attempt: nat)
    requires attempt >= 1
    ensures var wrapped := Wrap(base as int * Pow2(attempt - 1));
      Delay(base, cap, attempt) == if wrapped > cap then cap else wrapped
  {
    var n, x := attempt - 1, base as int;
    ShiftWraps(n);
    hide Wrap, ShiftOne, Pow2;
    var q := (Pow2(n) - ShiftOne(n) as int) / 0x1_0000_0000_0000_0000;
    assert Pow2(n) == ShiftOne(n) as int + q * 0x1_0000_0000_0000_0000;
    assert x * Pow2(n) == x * ShiftOne(n) as int + (x * q) * 0x1_0000_0000_0000_0000 by {
      Distributes(x, ShiftOne(n) as int, q, 0x1_0000_0000_0000_0000);
    }
    WrapShifted(x * ShiftOne(n) as int, x * q);
  }

  lemma Distributes(x: int, a: int, q: int, m: int)
    ensures x * (a + q * m) == x * a + (x * q) * m
  {
  }

  lemma WrapShifted(x: int, q: int)
    ensures Wrap(x + q * 0x1_0000_0000_0000_0000) == Wrap(x)
  {
    assert (x + q * 0x1_0000_0000_0000_0000) % 0x1_0000_0000_0000_0000 == x % 0x1_0000_0000_0000_0000;
  }

  // A shift past the word is zero, which is what the power wraps to.
  lemma ShiftWraps(n: nat)
    ensures (Pow2(n) - ShiftOne(n) as int) % 0x1_0000_0000_0000_0000 == 0
  {
    hide Pow2, Wrap;
    if n < 64 {
      WrapIff(Pow2(n), Wrap(Pow2(n)));
    } else {
      PowPastWord(n);
    }
  }

  lemma PowPastWord(n: nat)
    requires n >= 64
    ensures Pow2(n) % 0x1_0000_0000_0000_0000 == 0
  {
    hide Pow2;
    Pow64();
    PowProduct(64, n - 64, 0x1_0000_0000_0000_0000, Pow2(n - 64));
    MultipleOfWord(Pow2(n - 64));
  }

  lemma MultipleOfWord(q: int)
    ensures (0x1_0000_0000_0000_0000 * q) % 0x1_0000_0000_0000_0000 == 0
  {
  }

  lemma Pow64()
    ensures Pow2(64) == 0x1_0000_0000_0000_0000
  {
    Pow63();
    assert Pow2(1) == 2;
    hide Pow2;
    PowProduct(63, 1, MAX_INT64 + 1, 2);
  }

  lemma BoundedBackoff(base: int, b: nat, n: nat)
    requires 1 <= base <= Pow2(b) && b + n <= 62
    ensures 1 <= base * Pow2(n) <= MAX_INT64
  {
    Pow63();
    Pow2Sum(b, n);
    Pow2Strict(b + n, 63);
    FactorBelowProduct(base, Pow2(n));
    SmallerFactor(base, Pow2(b), Pow2(n));
  }

  lemma SmallerFactor(x: int, y: int, z: int)
    requires x <= y && z >= 0
    ensures x * z <= y * z
  {
  }

  lemma Pow2Strict(m: nat, n: nat)
    requires m < n
    ensures Pow2(m) < Pow2(n)
  {
    Pow2Monotone(m, n - 1);
  }

  lemma BackoffGrows(base: int64, cap: int64, attempt: nat)
    requires base > 0 && attempt >= 2
    ensures Backoff(base, cap, attempt - 1) <= Backoff(base, cap, attempt)
  {
    Pow2Monotone(attempt - 2, attempt - 1);
    assert base as int * Pow2(attempt - 2) <= base as int * Pow2(attempt - 1);
  }

  // With a bounded base and few enough attempts, transient retries follow the
  // schedule, wait a positive time, and never wait less than before.
  lemma RetrySchedule(limits: Limits, b: nat, attempt: nat)
    requires limits.Positive() && limits.baseBackoff as int <= Pow2(b) && limits.maxAttempts <= 64 - b
    requires 1 <= attempt < limits.maxAttempts
    ensures var r := Retry(limits, attempt, Transient);
      && r.retry && r.after as int == Backoff(limits.baseBackoff, limits.maxBackoff, attempt) && r.after > 0
      && (attempt > 1 ==> Retry(limits, attempt - 1, Transient).after <= r.after)
  {
    BoundedBackoff(limits.baseBackoff as int, b, attempt - 1);
    DelayWithoutOverflow(limits.baseBackoff, limits.maxBackoff, attempt);
    if attempt > 1 {
      BoundedBackoff(limits.baseBackoff as int, b, attempt - 2);
      DelayWithoutOverflow(limits.baseBackoff, limits.maxBackoff, attempt - 1);
      BackoffGrows(limits.baseBackoff, limits.maxBackoff, attempt);
    }
  }
}
