// segmentmerge/manifest.go, planner.go and the value types of model.go.
module Manifests {
  import opened Prelude

  const ENCODING_RAW := "raw"
  const ENCODING_GZIP := "gzip"

  datatype Segment = Segment(
    id: string, offset: int64, storedSize: int64, logicalSize: int64, digest: string, encoding: string)
  {
    function Begin(): int { offset as int }

    function Weight(): int { logicalSize as int }

    function End(): int { Begin() + Weight() }
  }

  datatype Manifest = Manifest(fileID: string, version: string, totalSize: int64, segments: seq<Segment>)

  datatype Checkpoint = Checkpoint(
    fileID: string, version: string, sessionID: string, nextOrdinal: int, outputSize: int)
  {
    // Checkpoint.Matches
    predicate Matches(m: Manifest) {
      fileID == m.fileID && version == m.version
    }
  }

  datatype PlanEntry = PlanEntry(ordinal: nat, memoryWeight: int64, segment: Segment)

  datatype MergePlan = MergePlan(
    fileID: string, version: string, totalSize: int64,
    startOrdinal: nat, sessionID: string, entries: seq<PlanEntry>)

  // ---------- What a manifest must satisfy, stated over all pairs of segments ----------

  predicate SegmentOk(s: Segment, totalSize: int64) {
    && s.id != ""
    && s.offset >= 0 && s.storedSize > 0 && s.logicalSize > 0
    && s.End() <= totalSize as int
    && (s.encoding == ENCODING_RAW || s.encoding == ENCODING_GZIP)
    && IsDigestText(s.digest)
  }

  predicate Disjoint(x: Segment, y: Segment) {
    x.End() <= y.Begin() || y.End() <= x.Begin()
  }

  predicate Compatible(x: Segment, y: Segment) {
    x.id != y.id && Disjoint(x, y)
  }

  predicate HeaderOk(m: Manifest) {
    !AllSpace(m.fileID) && !AllSpace(m.version) && m.totalSize >= 0
  }

  ghost predicate SegmentsOk(segments: seq<Segment>, totalSize: int64) {
    && (forall i :: 0 <= i < |segments| ==> SegmentOk(segments[i], totalSize))
    && (forall i, j :: 0 <= i < j < |segments| ==> Compatible(segments[i], segments[j]))
  }

  // The declarative meaning of "this manifest can be merged".
  ghost predicate Acceptable(m: Manifest) {
    HeaderOk(m) && SegmentsOk(m.segments, m.totalSize)
  }

  // ---------- The order CompileManifest sorts by ----------

  predicate Before(x: Segment, y: Segment) {
    if x.offset != y.offset then x.offset < y.offset else StringLess(x.id, y.id)
  }

  lemma BeforeTransitive(x: Segment, y: Segment, z: Segment)
    requires !Before(y, x) && !Before(z, y)
    ensures !Before(z, x)
  {
    if z.offset == x.offset && Before(z, x) {
      if !StringLess(x.id, y.id) { StringLessTotal(x.id, y.id); }
      if !StringLess(y.id, z.id) { StringLessTotal(y.id, z.id); }
      if StringLess(x.id, y.id) && StringLess(y.id, z.id) {
        StringLessTransitive(x.id, y.id, z.id);
      }
      StringLessAsymmetric(z.id, x.id);
    }
  }

  ghost predicate Sorted(s: seq<Segment>) {
    forall i, j :: 0 <= i < j < |s| ==> !Before(s[j], s[i])
  }

  // ---------- Sorting as a function, and why its result is the only one ----------

  function Insert(x: Segment, s: seq<Segment>): (r: seq<Segment>)
    ensures multiset(r) == multiset([x]) + multiset(s)
    ensures |r| == |s| + 1
  {
    if s == [] || Before(x, s[0]) then [x] + s
    else
      assert s == [s[0]] + s[1..];
      [s[0]] + Insert(x, s[1..])
  }

  function Sort(s: seq<Segment>): (r: seq<Segment>)
    ensures multiset(r) == multiset(s)
    ensures |r| == |s|
  {
    if s == [] then []
    else
      assert s == [s[0]] + s[1..];
      Insert(s[0], Sort(s[1..]))
  }

  lemma {:induction false} InsertKeepsSorted(x: Segment, s: seq<Segment>)
    requires Sorted(s)
    ensures Sorted(Insert(x, s))
  {
    if s == [] {
    } else if Before(x, s[0]) {
      BeforeAsymmetric(x, s[0]);
      forall j | 0 < j < |s| ensures !Before(s[j], x) {
        BeforeTransitive(x, s[0], s[j]);
      }
    } else {
      InsertKeepsSorted(x, s[1..]);
      var rest := Insert(x, s[1..]);
      forall j | 0 <= j < |rest| ensures !Before(rest[j], s[0]) {
        assert rest[j] in multiset(rest);
        assert rest[j] == x || rest[j] in s[1..];
      }
    }
  }

  lemma BeforeAsymmetric(x: Segment, y: Segment)
    requires Before(x, y)
    ensures !Before(y, x)
  {
    if x.offset == y.offset {
      StringLessAsymmetric(x.id, y.id);
    }
  }

  lemma {:induction false} SortIsSorted(s: seq<Segment>)
    ensures Sorted(Sort(s))
  {
    if s == [] {
    } else {
      SortIsSorted(s[1..]);
      InsertKeepsSorted(s[0], Sort(s[1..]));
    }
  }

  lemma SameFirst(a: seq<Segment>, b: seq<Segment>)
    requires a != [] && b != [] && multiset(a) == multiset(b)
    requires Sorted(a) && Sorted(b)
    requires forall i, j :: 0 <= i < j < |a| ==> a[i].id != a[j].id
    ensures a[0] == b[0]
  {
    assert a[0] in multiset(b) && b[0] in multiset(a);
    var k :| 0 <= k < |a| && a[k] == b[0];
    var l :| 0 <= l < |b| && b[l] == a[0];
    if k > 0 && l > 0 {
      assert !Before(a[k], a[0]) && !Before(b[l], b[0]);
      StringLessTotal(a[0].id, a[k].id);
    }
  }

  // Two sorted arrangements of the same segments with distinct ids are equal,
  // so the unstable sort.Slice still has exactly one possible outcome.
  lemma {:induction false} SortedUnique(a: seq<Segment>, b: seq<Segment>)
    requires multiset(a) == multiset(b)
    requires Sorted(a) && Sorted(b)
    requires forall i, j :: 0 <= i < j < |a| ==> a[i].id != a[j].id
    ensures a == b
  {
    assert |a| == |multiset(a)| == |multiset(b)| == |b|;
    if a == [] {
    } else {
      SameFirst(a, b);
      assert a == [a[0]] + a[1..] && b == [b[0]] + b[1..];
      assert multiset(a[1..]) == multiset(a) - multiset([a[0]]);
      assert multiset(b[1..]) == multiset(b) - multiset([b[0]]);
      SortedUnique(a[1..], b[1..]);
    }
  }

  // The validated, trimmed, ordered manifest.
  function Compiled(m: Manifest): Manifest {
    Manifest(TrimSpace(m.fileID), TrimSpace(m.version), m.totalSize, Sort(m.segments))
  }

  // ---------- Acceptability does not depend on the order of the segments ----------

  // A repeated element has two positions.
  lemma {:induction false} RepeatedHasTwoPositions<T>(s: seq<T>, x: T) returns (i: nat, j: nat)
    requires multiset(s)[x] >= 2
    ensures i < j < |s| && s[i] == x && s[j] == x
  {
    assert s == [s[0]] + s[1..];
    if s[0] == x {
      assert x in multiset(s[1..]);
      i := 0;
      j :| 1 <= j < |s| && s[j] == x;
    } else {
      i, j := RepeatedHasTwoPositions(s[1..], x);
      i, j := i + 1, j + 1;
    }
  }

  lemma {:induction false} TwoPositionsRepeat<T>(s: seq<T>, i: nat, j: nat)
    requires i < j < |s| && s[i] == s[j]
    ensures multiset(s)[s[i]] >= 2
  {
    assert s == s[..j] + s[j..];
    assert s[i] in s[..j] && s[i] in s[j..];
  }

  lemma SegmentsOkPermutes(a: seq<Segment>, b: seq<Segment>, totalSize: int64)
    requires multiset(a) == multiset(b)
    requires SegmentsOk(a, totalSize)
    ensures SegmentsOk(b, totalSize)
  {
    forall i | 0 <= i < |b| ensures SegmentOk(b[i], totalSize) {
      assert b[i] in multiset(a);
    }
    forall i, j | 0 <= i < j < |b| ensures Compatible(b[i], b[j]) {
      assert b[i] in multiset(a) && b[j] in multiset(a);
      if b[i] == b[j] {
        TwoPositionsRepeat(b, i, j);
        var k, l := RepeatedHasTwoPositions(a, b[i]);
        assert Compatible(a[k], a[l]);
      } else {
        var k :| 0 <= k < |a| && a[k] == b[i];
        var l :| 0 <= l < |a| && a[l] == b[j];
        assert if k < l then Compatible(a[k], a[l]) else Compatible(a[l], a[k]);
      }
    }
  }

  // Any two orderings of the same segments are both rejected, or both accepted
  // with the same compiled manifest.
  lemma CompileIsCanonical(m: Manifest, other: Manifest)
    requires m.fileID == other.fileID && m.version == other.version && m.totalSize == other.totalSize
    requires multiset(m.segments) == multiset(other.segments)
    ensures Acceptable(m) <==> Acceptable(other)
    ensures Acceptable(m) ==> Compiled(m) == Compiled(other)
  {
    if SegmentsOk(m.segments, m.totalSize) {
      SegmentsOkPermutes(m.segments, other.segments, m.totalSize);
      SegmentsOkPermutes(m.segments, Sort(m.segments), m.totalSize);
      SortIsSorted(m.segments);
      SortIsSorted(other.segments);
      SortedUnique(Sort(m.segments), Sort(other.segments));
    }
    if SegmentsOk(other.segments, m.totalSize) {
      SegmentsOkPermutes(other.segments, m.segments, m.totalSize);
    }
  }

  lemma SortIsIdempotent(s: seq<Segment>, totalSize: int64)
    requires SegmentsOk(s, totalSize)
    ensures SegmentsOk(Sort(s), totalSize)
    ensures Sort(Sort(s)) == Sort(s)
  {
    SegmentsOkPermutes(s, Sort(s), totalSize);
    SortIsSorted(s);
    SortIsSorted(Sort(s));
    assert forall i, j :: 0 <= i < j < |Sort(s)| ==> Compatible(Sort(s)[i], Sort(s)[j]);
    SortedUnique(Sort(s), Sort(Sort(s)));
  }

  // Merge compiles once and BuildPlan compiles the result again: nothing changes.
  lemma CompileIsIdempotent(m: Manifest)
    requires Acceptable(m)
    ensures Acceptable(Compiled(m))
    ensures Compiled(Compiled(m)) == Compiled(m)
    ensures Sorted(Compiled(m).segments)
  {
    TrimmedTwice(m.fileID);
    TrimmedTwice(m.version);
    hide AllSpace, TrimSpace, Sort, SegmentsOk, Sorted;
    SortIsIdempotent(m.segments, m.totalSize);
    SortIsSorted(m.segments);
  }

  lemma TrimmedTwice(s: string)
    ensures TrimSpace(TrimSpace(s)) == TrimSpace(s)
    ensures AllSpace(TrimSpace(s)) <==> AllSpace(s)
  {
    TrimSpaceIdempotent(s);
    TrimSpaceEmpty(s);
    TrimSpaceEmpty(TrimSpace(s));
  }

  // Compiled segments lie one after the other: each ends before the next begins.
  lemma CompiledOrdered(m: Manifest, i: nat, j: nat)
    requires Acceptable(m) && i < j < |Compiled(m).segments|
    ensures Compiled(m).segments[i].End() <= Compiled(m).segments[j].Begin()
  {
    CompileIsIdempotent(m);
    var s := Compiled(m).segments;
    assert !Before(s[j], s[i]) && Compatible(s[i], s[j]);
  }

  // ---------- CompileManifest ----------

  datatype ManifestError =
    | MissingHeader
    | InvalidSegment(index: nat)
    | DuplicateSegment(id: string)
    | OverlappingSegment(id: string)
    | SegmentTooFar(id: string)
    | UnsupportedEncoding(id: string)
    | InvalidDigest(id: string)

  // What each rejection says is really wrong with the caller's manifest.
  ghost predicate Justified(e: ManifestError, m: Manifest) {
    match e
    case MissingHeader => !HeaderOk(m)
    case InvalidSegment(index) =>
      && index < |m.segments|
      && exists s :: s in m.segments && (s.id == "" || s.offset < 0 || s.storedSize <= 0 || s.logicalSize <= 0)
    case DuplicateSegment(id) =>
      exists i, j :: 0 <= i < j < |m.segments| && m.segments[i].id == id == m.segments[j].id
    case OverlappingSegment(id) =>
      exists x, y :: x in m.segments && y in m.segments && x != y && y.id == id && !Disjoint(x, y)
    case SegmentTooFar(id) =>
      exists s :: s in m.segments && s.id == id && s.End() > m.totalSize as int
    case UnsupportedEncoding(id) =>
      exists s :: s in m.segments && s.id == id && s.encoding != ENCODING_RAW && s.encoding != ENCODING_GZIP
    case InvalidDigest(id) =>
      exists s :: s in m.segments && s.id == id && !IsDigestText(s.digest)
  }

  lemma JustifiedPermutes(e: ManifestError, a: Manifest, b: Manifest)
    requires multiset(a.segments) == multiset(b.segments)
    requires a.totalSize == b.totalSize
    requires !e.MissingHeader? && Justified(e, a)
    ensures Justified(e, b)
  {
    assert forall s :: s in a.segments ==> s in multiset(b.segments);
    assert |multiset(a.segments)| == |multiset(b.segments)|;
    if e.DuplicateSegment? {
      var i, j :| 0 <= i < j < |a.segments| && a.segments[i].id == e.id == a.segments[j].id;
      if a.segments[i] == a.segments[j] {
        TwoPositionsRepeat(a.segments, i, j);
        var k, l := RepeatedHasTwoPositions(b.segments, a.segments[i]);
      } else {
        assert a.segments[i] in multiset(b.segments) && a.segments[j] in multiset(b.segments);
        var k :| 0 <= k < |b.segments| && b.segments[k] == a.segments[i];
        var l :| 0 <= l < |b.segments| && b.segments[l] == a.segments[j];
        assert k < l || l < k;
      }
    }
  }

  predicate Malformed(s: Segment) {
    s.id == "" || s.offset < 0 || s.storedSize <= 0 || s.logicalSize <= 0
  }

  // Among sorted segments those before `index` are right, and `e` is the first
  // thing wrong with the one at `index`.
  ghost predicate FaultAt(segments: seq<Segment>, totalSize: int64, index: nat, e: ManifestError)
    requires index < |segments|
  {
    var s := segments[index];
    var repeated := exists i :: 0 <= i < index && segments[i].id == s.id;
    var overlaps := exists i :: 0 <= i < index && !Disjoint(segments[i], s);
    && SegmentsOk(segments[..index], totalSize)
    && match e
       case MissingHeader => false
       case InvalidSegment(k) => k == index && Malformed(s)
       case DuplicateSegment(id) => id == s.id && !Malformed(s) && repeated
       case OverlappingSegment(id) => id == s.id && !Malformed(s) && !repeated && overlaps
       case SegmentTooFar(id) =>
         id == s.id && !Malformed(s) && !repeated && !overlaps && s.End() > totalSize as int
       case UnsupportedEncoding(id) =>
         && id == s.id && !Malformed(s) && !repeated && !overlaps && s.End() <= totalSize as int
         && s.encoding != ENCODING_RAW && s.encoding != ENCODING_GZIP
       case InvalidDigest(id) =>
         && id == s.id && !Malformed(s) && !repeated && !overlaps && s.End() <= totalSize as int
         && (s.encoding == ENCODING_RAW || s.encoding == ENCODING_GZIP) && !IsDigestText(s.digest)
  }

  ghost predicate FirstFault(segments: seq<Segment>, totalSize: int64, e: ManifestError) {
    exists index: nat :: index < |segments| && FaultAt(segments, totalSize, index, e)
  }

  // There is at most one first fault, and it says what is wrong with the whole.
  lemma OneFirstFault(segments: seq<Segment>, totalSize: int64, e: ManifestError, d: ManifestError)
    requires Sorted(segments) && FirstFault(segments, totalSize, e)
    ensures FirstFault(segments, totalSize, d) ==> d == e
    ensures Justified(e, Manifest("", "", totalSize, segments)) && !e.MissingHeader?
    ensures !SegmentsOk(segments, totalSize)
  {
    hide Justified, Sorted, SegmentsOk, FaultAt;
    var i: nat :| i < |segments| && FaultAt(segments, totalSize, i, e);
    FaultJustified(segments, totalSize, i, e);
    PrefixOk(segments, totalSize, i + 1, |segments|);
    if FirstFault(segments, totalSize, d) {
      var j: nat :| j < |segments| && FaultAt(segments, totalSize, j, d);
      FaultJustified(segments, totalSize, j, d);
      if i < j {
        PrefixOk(segments, totalSize, i + 1, j);
      } else if j < i {
        PrefixOk(segments, totalSize, j + 1, i);
      } else {
        OneFaultAt(segments, totalSize, i, e, d);
      }
    }
  }

  lemma OneFaultAt(segments: seq<Segment>, totalSize: int64, index: nat, e: ManifestError, d: ManifestError)
    requires index < |segments|
    requires FaultAt(segments, totalSize, index, e) && FaultAt(segments, totalSize, index, d)
    ensures e == d
  {
    hide SegmentsOk, IsDigestText, Malformed, Disjoint;
  }

  lemma FaultJustified(segments: seq<Segment>, totalSize: int64, index: nat, e: ManifestError)
    requires Sorted(segments) && index < |segments| && FaultAt(segments, totalSize, index, e)
    ensures Justified(e, Manifest("", "", totalSize, segments)) && !e.MissingHeader?
    ensures SegmentsOk(segments[..index], totalSize) && !SegmentsOk(segments[..index + 1], totalSize)
  {
    hide IsDigestText, Sorted, Before;
    var s, upTo := segments[index], segments[..index + 1];
    assert s in segments && upTo[index] == s;
    if e.DuplicateSegment? || e.OverlappingSegment? {
      var i :| 0 <= i < index && if e.DuplicateSegment? then segments[i].id == s.id else !Disjoint(segments[i], s);
      assert upTo[i] == segments[i] && segments[i] in segments;
      assert !Compatible(upTo[i], upTo[index]);
      if e.OverlappingSegment? {
        assert segments[i].id != s.id;
      }
    }
  }

  lemma PrefixOk(segments: seq<Segment>, totalSize: int64, i: nat, j: nat)
    requires i <= j <= |segments|
    ensures SegmentsOk(segments[..j], totalSize) ==> SegmentsOk(segments[..i], totalSize)
    ensures SegmentsOk(segments, totalSize) ==> SegmentsOk(segments[..i], totalSize)
  {
  }

  // sort.Slice on the detached copy: some sorted permutation.
  method SortInPlace(a: array<Segment>)
    modifies a
    ensures Sorted(a[..])
    ensures multiset(a[..]) == old(multiset(a[..]))
  {
    for i := 0 to a.Length
      invariant Sorted(a[..i])
      invariant multiset(a[..]) == old(multiset(a[..]))
    {
      SinkLast(a, i);
    }
    assert a[..a.Length] == a[..];
  }

  // Moves a[last] down to its place among the sorted elements before it.
  method SinkLast(a: array<Segment>, last: nat)
    requires last < a.Length && Sorted(a[..last])
    modifies a
    ensures Sorted(a[..last + 1])
    ensures multiset(a[..]) == old(multiset(a[..]))
  {
    hide Before;
    var j := last;
    while j > 0 && Before(a[j], a[j - 1])
      invariant 0 <= j <= last
      invariant multiset(a[..]) == old(multiset(a[..]))
      invariant forall x, y :: 0 <= x < y <= last && y != j ==> !Before(a[y], a[x])
    {
      ghost var lower, upper := a[j - 1], a[j];
      BeforeAsymmetric(upper, lower);
      SwapDown(a, j);
      j := j - 1;
    }
    forall x | 0 <= x < j ensures !Before(a[j], a[x]) {
      if x < j - 1 {
        BeforeTransitive(a[x], a[j - 1], a[j]);
      }
    }
  }

  method SwapDown(a: array<Segment>, j: nat)
    requires 0 < j < a.Length
    modifies a
    ensures a[j - 1] == old(a[j]) && a[j] == old(a[j - 1])
    ensures forall k :: 0 <= k < a.Length && k != j && k != j - 1 ==> a[k] == old(a[k])
    ensures multiset(a[..]) == old(multiset(a[..]))
  {
    a[j - 1], a[j] := a[j], a[j - 1];
  }

  // CompileManifest decides the all-pairs specification with one pass over the
  // sorted copy; the input value is left alone.
  method CompileManifest(input: Manifest) returns (r: Result<Manifest, ManifestError>)
    ensures r.Success? <==> Acceptable(input)
    ensures r.Success? ==> r.value == Compiled(input)
    ensures r.Success? ==>
      && IsTrimOf(input.fileID, r.value.fileID) && IsTrimOf(input.version, r.value.version)
      && r.value.totalSize == input.totalSize
      && Sorted(r.value.segments) && multiset(r.value.segments) == multiset(input.segments)
    ensures r.Failure? ==> Justified(r.error, input)
    ensures r == Failure(MissingHeader) <==> !HeaderOk(input)
    ensures r.Failure? && HeaderOk(input) ==> exists sorted ::
      Sorted(sorted) && multiset(sorted) == multiset(input.segments) && FirstFault(sorted, input.totalSize, r.error)
  {
    hide Sorted, SegmentsOk, TrimSpace, Sort, IsTrimOf, AllSpace, Justified, FirstFault;
    var manifest := input.(fileID := TrimSpace(input.fileID), version := TrimSpace(input.version));
    TrimSpaceEmpty(input.fileID);
    TrimSpaceEmpty(input.version);
    TrimSpaceIff(input.fileID, manifest.fileID);
    TrimSpaceIff(input.version, manifest.version);
    if manifest.fileID == "" || manifest.version == "" || manifest.totalSize < 0 {
      HeaderJustified(input);
      return Failure(MissingHeader);
    }
    var a := new Segment[|input.segments|](i requires 0 <= i < |input.segments| => input.segments[i]);
    assert a[..] == input.segments;
    SortInPlace(a);
    var segments := a[..];
    var error := ScanSorted(segments, manifest.totalSize);
    ScanDecides(input, segments);
    if error.Some? {
      OneFirstFault(segments, manifest.totalSize, error.value, error.value);
      JustifiedPermutes(error.value, Manifest("", "", input.totalSize, segments), input);
      return Failure(error.value);
    }
    return Success(manifest.(segments := segments));
  }

  lemma HeaderJustified(m: Manifest)
    requires !HeaderOk(m)
    ensures Justified(MissingHeader, m)
  {
  }

  // Checking a sorted copy settles the question for the caller's order too.
  lemma ScanDecides(m: Manifest, sorted: seq<Segment>)
    requires Sorted(sorted) && multiset(sorted) == multiset(m.segments)
    ensures SegmentsOk(sorted, m.totalSize) <==> SegmentsOk(m.segments, m.totalSize)
    ensures SegmentsOk(sorted, m.totalSize) ==> sorted == Sort(m.segments)
  {
    if SegmentsOk(sorted, m.totalSize) {
      SegmentsOkPermutes(sorted, m.segments, m.totalSize);
      SortIsSorted(m.segments);
      assert forall i, j :: 0 <= i < j < |sorted| ==> Compatible(sorted[i], sorted[j]);
      SortedUnique(sorted, Sort(m.segments));
    } else if SegmentsOk(m.segments, m.totalSize) {
      SegmentsOkPermutes(m.segments, sorted, m.totalSize);
    }
  }

  // The validation loop over the sorted copy.
  method ScanSorted(segments: seq<Segment>, totalSize: int64) returns (error: Option<ManifestError>)
    requires Sorted(segments) && totalSize >= 0
    ensures error.None? <==> SegmentsOk(segments, totalSize)
    ensures error.Some? ==> FirstFault(segments, totalSize, error.value)
  {
    hide Sorted, IsDigestText, FaultAt, Justified;
    var seen: set<string> := {};
    var previousEnd: int64 := 0;
    for index := 0 to |segments|
      invariant SegmentsOk(segments[..index], totalSize)
      invariant seen == set i | 0 <= i < index :: segments[i].id
      invariant previousEnd as int == if index == 0 then 0 else segments[index - 1].End()
      invariant forall i :: 0 <= i < index ==> segments[i].End() <= previousEnd as int
    {
      var segment := segments[index];
      error := CheckNext(segments, index, segment.id in seen, previousEnd, totalSize);
      if error.Some? {
        OneFirstFault(segments, totalSize, error.value, error.value);
        return;
      }
      seen := seen + {segment.id};
      previousEnd := segment.offset + segment.logicalSize;
      ScanExtends(segments, index, totalSize);
    }
    assert segments[..|segments|] == segments;
    return None;
  }

  // One turn of that loop.
  method CheckNext(segments: seq<Segment>, index: nat, repeated: bool, previousEnd: int64, totalSize: int64)
    returns (error: Option<ManifestError>)
    requires Sorted(segments) && totalSize >= 0 && index < |segments| && SegmentsOk(segments[..index], totalSize)
    requires repeated == exists i :: 0 <= i < index && segments[i].id == segments[index].id
    requires previousEnd as int == if index == 0 then 0 else segments[index - 1].End()
    requires forall i :: 0 <= i < index ==> segments[i].End() <= previousEnd as int
    ensures error.None? ==> SegmentOk(segments[index], totalSize) && !repeated && segments[index].offset >= previousEnd
    ensures error.Some? ==> FaultAt(segments, totalSize, index, error.value)
  {
    hide Sorted, SegmentsOk, IsDigestText;
    var segment := segments[index];
    if Malformed(segment) {
      return Some(InvalidSegment(index));
    }
    if repeated {
      return Some(DuplicateSegment(segment.id));
    }
    OverlapIsClose(segments, index, totalSize);
    if segment.offset < previousEnd {
      return Some(OverlappingSegment(segment.id));
    }
    if segment.offset > totalSize - segment.logicalSize {
      return Some(SegmentTooFar(segment.id));
    }
    if segment.encoding != ENCODING_RAW && segment.encoding != ENCODING_GZIP {
      return Some(UnsupportedEncoding(segment.id));
    }
    return if IsDigestText(segment.digest) then None else Some(InvalidDigest(segment.id));
  }

  // Overlapping any earlier segment of a sorted list is overlapping the last one.
  lemma OverlapIsClose(segments: seq<Segment>, index: nat, totalSize: int64)
    requires Sorted(segments) && index < |segments| && SegmentsOk(segments[..index], totalSize)
    requires !Malformed(segments[index])
    requires forall i :: 0 <= i < index ==> segments[i].End() <= segments[index - 1].End()
    ensures (exists i :: 0 <= i < index && !Disjoint(segments[i], segments[index]))
      <==> index > 0 && segments[index].Begin() < segments[index - 1].End()
  {
    var s := segments[index];
    forall i | 0 <= i < index ensures !Disjoint(segments[i], s) <==> s.Begin() < segments[i].End() {
      assert SegmentOk(segments[..index][i], totalSize) && !Before(s, segments[i]);
    }
  }

  // One more segment that fits after all the earlier ones.
  lemma ScanExtends(segments: seq<Segment>, index: nat, totalSize: int64)
    requires index < |segments| && SegmentsOk(segments[..index], totalSize)
    requires SegmentOk(segments[index], totalSize)
    requires forall i :: 0 <= i < index ==>
      segments[i].id != segments[index].id && segments[i].End() <= segments[index].Begin()
    ensures SegmentsOk(segments[..index + 1], totalSize)
  {
    var longer, shorter := segments[..index + 1], segments[..index];
    forall i, j | 0 <= i < j < |longer| ensures Compatible(longer[i], longer[j]) {
      if j < index {
        assert Compatible(shorter[i], shorter[j]);
      }
    }
    forall i | 0 <= i < |longer| ensures SegmentOk(longer[i], totalSize) {
      assert i < index ==> SegmentOk(shorter[i], totalSize);
    }
  }

  // ---------- BuildPlan ----------

  function EntryFor(segments: seq<Segment>, ordinal: nat): PlanEntry
    requires ordinal < |segments|
  {
    PlanEntry(ordinal, segments[ordinal].logicalSize, segments[ordinal])
  }

  datatype PlanError = BadManifest(cause: ManifestError) | CheckpointMismatch

  predicate CheckpointFits(m: Manifest, checkpoint: Option<Checkpoint>) {
    checkpoint.Some? ==>
      && checkpoint.value.fileID == Compiled(m).fileID && checkpoint.value.version == Compiled(m).version
      && 0 <= checkpoint.value.nextOrdinal <= |m.segments|
  }

  // The plan is the suffix of the compiled manifest that the checkpoint leaves.
  method BuildPlan(manifest: Manifest, checkpoint: Option<Checkpoint>) returns (r: Result<MergePlan, PlanError>)
    ensures r.Success? <==> Acceptable(manifest) && CheckpointFits(manifest, checkpoint)
    ensures r.Failure? ==> (r.error.BadManifest? <==> !Acceptable(manifest))
    ensures r.Success? ==>
      var plan, compiled := r.value, Compiled(manifest);
      && plan.fileID == compiled.fileID && plan.version == compiled.version
      && plan.totalSize == compiled.totalSize
      && plan.startOrdinal == (if checkpoint.Some? then checkpoint.value.nextOrdinal else 0)
      && plan.sessionID == (if checkpoint.Some? then checkpoint.value.sessionID else "")
      && |plan.entries| == |manifest.segments| - plan.startOrdinal
      && forall k :: 0 <= k < |plan.entries| ==>
           plan.entries[k] == EntryFor(compiled.segments, plan.startOrdinal + k)
  {
    hide Acceptable, TrimSpace, Justified;
    var compilation := CompileManifest(manifest);
    if compilation.Failure? {
      return Failure(BadManifest(compilation.error));
    }
    var compiled := compilation.value;
    var startOrdinal, sessionID := 0, "";
    if checkpoint.Some? {
      var c := checkpoint.value;
      if !c.Matches(compiled) || c.nextOrdinal < 0 || c.nextOrdinal > |compiled.segments| {
        return Failure(CheckpointMismatch);
      }
      startOrdinal, sessionID := c.nextOrdinal, c.sessionID;
    }
    var entries: seq<PlanEntry> := [];
    for ordinal := startOrdinal to |compiled.segments|
      invariant |entries| == ordinal - startOrdinal
      invariant forall k :: 0 <= k < |entries| ==> entries[k] == EntryFor(compiled.segments, startOrdinal + k)
    {
      var segment := compiled.segments[ordinal];
      entries := entries + [PlanEntry(ordinal, segment.logicalSize, segment)];
    }
    return Success(MergePlan(
      compiled.fileID, compiled.version, compiled.totalSize, startOrdinal, sessionID, entries));
  }
}
