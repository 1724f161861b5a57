// journal/store.go and file.go: a log of numbered, checksummed lines.
module Journals {
  import opened Prelude

  const NEWLINE: byte := 10
  const RETURN: byte := 13

  // What scanner.Buffer allows a line to need, its newline included.
  const SCAN_LIMIT: nat := 4 * 1024 * 1024

  datatype Event = Event(operationID: string, kind: string, at: int, attempt: int, fence: nat, payload: bytes)

  datatype Envelope = Envelope(sequence: nat, checksum: string, event: Event)

  datatype Replay = Replay(events: seq<Envelope>, lastSequence: nat)

  datatype JournalError =
    | Expired
    | InvalidEvent
    | EncodeFailed
    | Corrupt(sequence: nat)
    | SequenceGap(expected: nat, got: nat)
    | LineTooLong
    | NoOperation
    | Closed

  // encoding/json and crypto/sha256, as the journal uses them.
  datatype Codec = Codec(
    marshalEvent: Event -> Option<bytes>,
    marshal: Envelope -> Option<bytes>,
    unmarshal: bytes -> Option<Envelope>,
    normal: Event -> Event,
    digest: bytes -> string)

  predicate ValidKind(kind: string) {
    kind in {"accepted", "started", "progress", "retrying", "completed", "failed", "cancelled"}
  }

  predicate Proper(e: Event) {
    e.operationID != "" && ValidKind(e.kind)
  }

  // Reading back what was written gives the event in normal form (payload
  // compacted), which is encoded the same way; an encoded line has no newline
  // and does not end in a carriage return.
  ghost predicate CodecOk(c: Codec) {
    && (forall e: Envelope :: c.marshal(e).Some? ==> ReadsBack(c, e))
    && (forall e: Event :: NormalOk(c, e))
  }

  ghost predicate ReadsBack(c: Codec, e: Envelope)
    requires c.marshal(e).Some?
  {
    var line := c.marshal(e).value;
    CleanLine(line) && c.unmarshal(line) == Some(e.(event := c.normal(e.event)))
  }

  ghost predicate NormalOk(c: Codec, e: Event) {
    var n := c.normal(e);
    c.marshalEvent(n) == c.marshalEvent(e) && n.operationID == e.operationID && n.kind == e.kind
  }

  predicate CleanLine(line: bytes) {
    line != [] && NEWLINE !in line && line[|line| - 1] != RETURN
  }

  // ---------- Lines and streams ----------

  function JoinLines(lines: seq<bytes>): bytes {
    if lines == [] then [] else lines[0] + [NEWLINE] + JoinLines(lines[1..])
  }

  function LineEnd(data: bytes): (k: nat)
    ensures k <= |data| && NEWLINE !in data[..k] && (k < |data| ==> data[k] == NEWLINE)
  {
    if data == [] || data[0] == NEWLINE then 0
    else
      assert data == [data[0]] + data[1..];
      1 + LineEnd(data[1..])
  }

  function DropReturn(line: bytes): bytes {
    if line != [] && line[|line| - 1] == RETURN then line[..|line| - 1] else line
  }

  datatype Scanned = Scanned(lines: seq<bytes>, tooLong: bool)

  // bufio.ScanLines over the whole stream, up to the first line over the limit.
  function Scan(data: bytes): Scanned
    decreases |data|
  {
    if data == [] then Scanned([], false)
    else
      var k := LineEnd(data);
      if k >= SCAN_LIMIT then Scanned([], true)
      else
        var rest := if k < |data| then Scan(data[k + 1..]) else Scanned([], false);
        Scanned([DropReturn(data[..k])] + rest.lines, rest.tooLong)
  }

  // The lines a scanner yields before it meets one that is too long.
  function ShortPrefix(lines: seq<bytes>): Scanned {
    if lines == [] then Scanned([], false)
    else if |lines[0]| >= SCAN_LIMIT then Scanned([], true)
    else
      var rest := ShortPrefix(lines[1..]);
      Scanned([lines[0]] + rest.lines, rest.tooLong)
  }

  lemma {:induction false} LineEndOf(line: bytes, rest: bytes)
    requires NEWLINE !in line
    ensures LineEnd(line + [NEWLINE] + rest) == |line|
  {
    if line == [] {
    } else {
      assert (line + [NEWLINE] + rest)[1..] == line[1..] + [NEWLINE] + rest;
      LineEndOf(line[1..], rest);
    }
  }

  // Scanning undoes joining.
  lemma {:induction false} ScanUndoesJoin(lines: seq<bytes>)
    requires forall k :: 0 <= k < |lines| ==> CleanLine(lines[k])
    ensures Scan(JoinLines(lines)) == ShortPrefix(lines)
  {
    if lines == [] {
    } else {
      var data := JoinLines(lines);
      LineEndOf(lines[0], JoinLines(lines[1..]));
      assert data[..|lines[0]|] == lines[0];
      assert data[|lines[0]| + 1..] == JoinLines(lines[1..]);
      ScanUndoesJoin(lines[1..]);
    }
  }

  // `r` is the line without the one carriage return that may end it.
  ghost predicate WithoutReturn(line: bytes, r: bytes) {
    line == r + [RETURN] || (line == r && (r == [] || r[|r| - 1] != RETURN))
  }

  // Every stream is a number of lines, each with its newline, and what follows the last newline.
  lemma {:induction false} StreamSplits(data: bytes) returns (parts: seq<bytes>, tail: bytes)
    ensures data == JoinLines(parts) + tail && NEWLINE !in tail
    ensures forall k :: 0 <= k < |parts| ==> NEWLINE !in parts[k]
    decreases |data|
  {
    var k := LineEnd(data);
    if k == |data| {
      parts, tail := [], data;
      assert data[..k] == data;
    } else {
      var later, rest := StreamSplits(data[k + 1..]);
      parts, tail := [data[..k]] + later, rest;
      assert parts[1..] == later;
      assert data == data[..k] + [NEWLINE] + data[k + 1..];
    }
  }

  // The scanner yields these lines in order, up to the first that is too long.
  ghost predicate ScannedFrom(all: seq<bytes>, input: Scanned) {
    && |input.lines| <= |all| && (input.tooLong <==> |input.lines| < |all|)
    && (input.tooLong ==> |all[|input.lines|]| >= SCAN_LIMIT)
    && forall k :: 0 <= k < |input.lines| ==> |all[k]| < SCAN_LIMIT && WithoutReturn(all[k], input.lines[k])
  }

  // What the scanner makes of such a stream; a last line needs no newline.
  lemma {:induction false} ScanYields(parts: seq<bytes>, tail: bytes)
    requires NEWLINE !in tail && forall k :: 0 <= k < |parts| ==> NEWLINE !in parts[k]
    ensures ScannedFrom(parts + (if tail == [] then [] else [tail]), Scan(JoinLines(parts) + tail))
  {
    var last := if tail == [] then [] else [tail];
    hide ScannedFrom, Scan, ScannedBefore;
    if parts == [] {
      ScanLast(tail);
      assert JoinLines(parts) + tail == tail && parts + last == last;
    } else {
      var rest := JoinLines(parts[1..]) + tail;
      ScanYields(parts[1..], tail);
      assert JoinLines(parts) + tail == parts[0] + [NEWLINE] + rest;
      assert parts + last == [parts[0]] + (parts[1..] + last);
      ScanNext(parts[0], rest);
      ScannedOneMore(parts[0], parts[1..] + last, Scan(rest));
    }
  }

  function ScannedBefore(line: bytes, input: Scanned): Scanned {
    if |line| >= SCAN_LIMIT then Scanned([], true)
    else Scanned([DropReturn(line)] + input.lines, input.tooLong)
  }

  lemma ScanLast(tail: bytes)
    requires NEWLINE !in tail
    ensures ScannedFrom(if tail == [] then [] else [tail], Scan(tail))
  {
    if tail != [] {
      NoLineEnd(tail);
      assert tail[..|tail|] == tail;
      ScannedOneMore(tail, [], Scanned([], false));
    }
  }

  lemma ScanNext(line: bytes, rest: bytes)
    requires NEWLINE !in line
    ensures Scan(line + [NEWLINE] + rest) == ScannedBefore(line, Scan(rest))
  {
    var data := line + [NEWLINE] + rest;
    LineEndOf(line, rest);
    assert data[..|line|] == line && data[|line| + 1..] == rest;
  }

  lemma ScannedOneMore(line: bytes, all: seq<bytes>, input: Scanned)
    requires ScannedFrom(all, input)
    ensures ScannedFrom([line] + all, ScannedBefore(line, input))
  {
    assert WithoutReturn(line, DropReturn(line));
    hide WithoutReturn;
  }

  lemma {:induction false} NoLineEnd(line: bytes)
    requires NEWLINE !in line
    ensures LineEnd(line) == |line|
  {
    if line != [] {
      NoLineEnd(line[1..]);
    }
  }

  lemma {:induction false} ShortPrefixWhole(lines: seq<bytes>)
    ensures !ShortPrefix(lines).tooLong <==> forall k :: 0 <= k < |lines| ==> |lines[k]| < SCAN_LIMIT
    ensures !ShortPrefix(lines).tooLong ==> ShortPrefix(lines).lines == lines
    ensures var n := |ShortPrefix(lines).lines|;
      && n <= |lines| && ShortPrefix(lines).lines == lines[..n]
      && (forall k :: 0 <= k < n ==> |lines[k]| < SCAN_LIMIT)
      && (ShortPrefix(lines).tooLong ==> n < |lines| && |lines[n]| >= SCAN_LIMIT)
  {
    if lines == [] {
    } else {
      ShortPrefixWhole(lines[1..]);
      assert forall k :: 1 <= k < |lines| ==> lines[k] == lines[1..][k - 1];
      if |lines[0]| < SCAN_LIMIT {
        assert lines == [lines[0]] + lines[1..];
      }
    }
  }

  lemma {:induction false} JoinSnoc(lines: seq<bytes>, line: bytes)
    ensures JoinLines(lines + [line]) == JoinLines(lines) + line + [NEWLINE]
  {
    if lines == [] {
      assert JoinLines([line]) == line + [NEWLINE];
    } else {
      assert (lines + [line])[1..] == lines[1..] + [line] && (lines + [line])[0] == lines[0];
      JoinSnoc(lines[1..], line);
      var first := lines[0] + [NEWLINE];
      assert first + (JoinLines(lines[1..]) + line + [NEWLINE]) == (first + JoinLines(lines[1..])) + line + [NEWLINE];
    }
  }

  // ---------- encodeEnvelope, verifyEnvelope, decodeStream ----------

  function Sealed(c: Codec, sequence: nat, e: Event): Option<Envelope> {
    var encoded := c.marshalEvent(e);
    if encoded.None? then None else Some(Envelope(sequence, c.digest(encoded.value), e))
  }

  function Encoded(c: Codec, sequence: nat, e: Event): Option<bytes> {
    var sealed := Sealed(c, sequence, e);
    if sealed.None? then None else c.marshal(sealed.value)
  }

  // verifyEnvelope
  function Problem(c: Codec, e: Envelope): Option<JournalError> {
    var encoded := c.marshalEvent(e.event);
    if encoded.None? then Some(EncodeFailed)
    else if e.checksum != c.digest(encoded.value) then Some(Corrupt(e.sequence))
    else if !Proper(e.event) then Some(Corrupt(e.sequence))
    else None
  }

  // One turn of decodeStream.
  function Read(c: Codec, line: bytes, expected: nat): Result<Envelope, JournalError> {
    var envelope := c.unmarshal(line);
    if envelope.None? then Failure(Corrupt(expected))
    else if envelope.value.sequence != expected then Failure(SequenceGap(expected, envelope.value.sequence))
    else
      var problem := Problem(c, envelope.value);
      if problem.Some? then Failure(problem.value) else Success(envelope.value)
  }

  function Kept(e: Envelope, operationID: string): seq<Envelope> {
    if operationID == "" || e.event.operationID == operationID then [e] else []
  }

  // `ctx(k)` is what ctx.Err() reports when the k-th line has been scanned.
  function Decoded(c: Codec, ctx: nat -> bool, input: Scanned, expected: nat, operationID: string)
    : Result<Replay, JournalError>
    requires expected >= 1
    decreases |input.lines|
  {
    if input.lines == [] then
      if input.tooLong then Failure(LineTooLong) else Success(Replay([], expected - 1))
    else if ctx(expected) then Failure(Expired)
    else
      var envelope := Read(c, input.lines[0], expected);
      if envelope.Failure? then Failure(envelope.error)
      else
        Before(Kept(envelope.value, operationID),
               Decoded(c, ctx, input.(lines := input.lines[1..]), expected + 1, operationID))
  }

  function Before(events: seq<Envelope>, r: Result<Replay, JournalError>): Result<Replay, JournalError> {
    match r
    case Success(replay) => Success(replay.(events := events + replay.events))
    case Failure(e) => r
  }

  lemma BeforeNothing(r: Result<Replay, JournalError>)
    ensures Before([], r) == r
  {
    if r.Success? {
      assert [] + r.value.events == r.value.events;
    }
  }

  lemma BeforeTwice(a: seq<Envelope>, b: seq<Envelope>, r: Result<Replay, JournalError>)
    ensures Before(a, Before(b, r)) == Before(a + b, r)
  {
    if r.Success? {
      assert a + (b + r.value.events) == (a + b) + r.value.events;
    }
  }

  // bytes.IndexByte
  method FindLineEnd(data: bytes, pos: nat) returns (end: nat)
    requires pos <= |data|
    ensures end == pos + LineEnd(data[pos..])
  {
    end := pos;
    while end < |data| && data[end] != NEWLINE
      invariant pos <= end <= |data|
      invariant pos + LineEnd(data[pos..]) == end + LineEnd(data[end..])
    {
      assert data[end..][1..] == data[end + 1..];
      end := end + 1;
    }
  }

  // One line more, as the stream's meaning sees it.
  lemma DecodedNext(c: Codec, ctx: nat -> bool, rest: bytes, expected: nat, operationID: string)
    requires expected >= 1 && rest != []
    ensures var k := LineEnd(rest);
      Decoded(c, ctx, Scan(rest), expected, operationID) ==
      if k >= SCAN_LIMIT then Failure(LineTooLong)
      else if ctx(expected) then Failure(Expired)
      else
        var envelope := Read(c, DropReturn(rest[..k]), expected);
        if envelope.Failure? then Failure(envelope.error)
        else
          var tail := if k < |rest| then rest[k + 1..] else [];
          Before(Kept(envelope.value, operationID), Decoded(c, ctx, Scan(tail), expected + 1, operationID))
  {
    var k := LineEnd(rest);
    if k < SCAN_LIMIT {
      var input, tail := Scan(rest), Scan(if k < |rest| then rest[k + 1..] else []);
      assert input.lines[1..] == tail.lines && input.tooLong == tail.tooLong;
      assert input.(lines := input.lines[1..]) == tail;
    }
  }

  // The body of the loop in decodeStream, up to the selection.
  method ReadNext(c: Codec, ctx: nat -> bool, data: bytes, pos: nat, expected: nat, ghost operationID: string)
    returns (r: Result<Envelope, JournalError>, next: nat)
    requires pos < |data| && expected >= 1
    ensures pos < next <= |data|
    ensures Decoded(c, ctx, Scan(data[pos..]), expected, operationID) ==
      if r.Failure? then Failure(r.error)
      else Before(Kept(r.value, operationID), Decoded(c, ctx, Scan(data[next..]), expected + 1, operationID))
  {
    hide Scan, Decoded, Before, Read;
    var end := FindLineEnd(data, pos);
    DecodedNext(c, ctx, data[pos..], expected, operationID);
    next := if end < |data| then end + 1 else end;
    if end - pos >= SCAN_LIMIT {
      r := Failure(LineTooLong);
    } else if ctx(expected) {
      r := Failure(Expired);
    } else {
      assert data[pos..][..end - pos] == data[pos..end];
      r := Read(c, DropReturn(data[pos..end]), expected);
      assert (if end < |data| then data[pos..][end - pos + 1..] else []) == data[next..];
    }
  }

  lemma DecodedEnd(c: Codec, ctx: nat -> bool, events: seq<Envelope>, expected: nat, operationID: string)
    requires expected >= 1
    ensures Before(events, Decoded(c, ctx, Scan([]), expected, operationID)) == Success(Replay(events, expected - 1))
  {
    assert events + [] == events;
  }

  method DecodeStream(c: Codec, ctx: nat -> bool, data: bytes, operationID: string)
    returns (r: Result<Replay, JournalError>)
    ensures r == Decoded(c, ctx, Scan(data), 1, operationID)
    ensures Means(c, ctx, Scan(data), operationID, r)
  {
    hide Means, Scan, Decoded;
    DecodedMeans(c, ctx, Scan(data), operationID);
    var pos, expected := 0, 1;
    var events: seq<Envelope> := [];
    assert data[0..] == data;
    BeforeNothing(Decoded(c, ctx, Scan(data), 1, operationID));
    while pos < |data|
      invariant pos <= |data| && expected >= 1
      invariant Decoded(c, ctx, Scan(data), 1, operationID)
        == Before(events, Decoded(c, ctx, Scan(data[pos..]), expected, operationID))
    {
      var envelope, next := ReadNext(c, ctx, data, pos, expected, operationID);
      if envelope.Failure? {
        return Failure(envelope.error);
      }
      ghost var kept := Kept(envelope.value, operationID);
      BeforeTwice(events, kept, Decoded(c, ctx, Scan(data[next..]), expected + 1, operationID));
      if operationID == "" || envelope.value.event.operationID == operationID {
        events := events + [envelope.value];
      } else {
        assert events + kept == events;
      }
      pos, expected := next, expected + 1;
    }
    assert data[pos..] == [];
    DecodedEnd(c, ctx, events, expected, operationID);
    return Success(Replay(events, expected - 1));
  }

  // Replay for one operation is the order-preserving selection from All, on any bytes.
  function Only(events: seq<Envelope>, operationID: string): seq<Envelope> {
    if events == [] then [] else Kept(events[0], operationID) + Only(events[1..], operationID)
  }

  lemma {:induction false} ReplaySelectsFromAll(
    c: Codec, ctx: nat -> bool, input: Scanned, expected: nat, operationID: string)
    requires expected >= 1 && operationID != ""
    ensures var all, one := Decoded(c, ctx, input, expected, ""), Decoded(c, ctx, input, expected, operationID);
      && (all.Failure? ==> one == all)
      && (all.Success? ==> one == Success(Replay(Only(all.value.events, operationID), all.value.lastSequence)))
    decreases |input.lines|
  {
    if input.lines == [] || ctx(expected) || Read(c, input.lines[0], expected).Failure? {
    } else {
      var rest := input.(lines := input.lines[1..]);
      ReplaySelectsFromAll(c, ctx, rest, expected + 1, operationID);
      var all := Decoded(c, ctx, input, expected, "");
      if all.Success? {
        var later := Decoded(c, ctx, rest, expected + 1, "").value.events;
        assert all.value.events == [Read(c, input.lines[0], expected).value] + later;
        assert all.value.events[1..] == later;
      }
    }
  }

  // ---------- When a stream is accepted ----------

  // The line is a whole and unaltered record with this number.
  ghost predicate Sound(c: Codec, line: bytes, sequence: nat, e: Envelope) {
    && c.unmarshal(line) == Some(e) && e.sequence == sequence
    && c.marshalEvent(e.event).Some? && e.checksum == c.digest(c.marshalEvent(e.event).value)
    && e.event.operationID != "" && ValidKind(e.event.kind)
  }

  ghost predicate ReadsAt(c: Codec, ctx: nat -> bool, line: bytes, sequence: nat) {
    !ctx(sequence) && exists e :: Sound(c, line, sequence, e)
  }

  // What is wrong with a line where a record with this number is expected.
  ghost predicate Fault(c: Codec, ctx: nat -> bool, line: bytes, sequence: nat, problem: JournalError) {
    var read := c.unmarshal(line);
    if ctx(sequence) then problem == Expired
    else if read.None? then problem == Corrupt(sequence)
    else if read.value.sequence != sequence then problem == SequenceGap(sequence, read.value.sequence)
    else
      var encoded := c.marshalEvent(read.value.event);
      if encoded.None? then problem == EncodeFailed
      else
        && problem == Corrupt(sequence)
        && (read.value.checksum == c.digest(encoded.value) ==>
              read.value.event.operationID == "" || !ValidKind(read.value.event.kind))
  }

  lemma ReadIff(c: Codec, ctx: nat -> bool, line: bytes, sequence: nat)
    ensures forall e :: Read(c, line, sequence) == Result.Success(e) <==> Sound(c, line, sequence, e)
    ensures ReadsAt(c, ctx, line, sequence) <==> !ctx(sequence) && Read(c, line, sequence).Success?
    ensures forall problem :: Fault(c, ctx, line, sequence, problem) <==>
      if ctx(sequence) then problem == Expired else Read(c, line, sequence) == Failure(problem)
  {
    if Read(c, line, sequence).Success? {
      assert Sound(c, line, sequence, Read(c, line, sequence).value);
    }
  }

  ghost predicate AllRead(c: Codec, ctx: nat -> bool, lines: seq<bytes>, expected: nat) {
    forall k :: 0 <= k < |lines| ==> ReadsAt(c, ctx, lines[k], expected + k)
  }

  // The first line that does not read, and what is wrong with it.
  ghost predicate FirstFault(
    c: Codec, ctx: nat -> bool, lines: seq<bytes>, expected: nat, at: nat, problem: JournalError)
  {
    && at < |lines| && AllRead(c, ctx, lines[..at], expected)
    && Fault(c, ctx, lines[at], expected + at, problem)
  }

  ghost predicate Faulty(c: Codec, ctx: nat -> bool, lines: seq<bytes>, expected: nat, problem: JournalError) {
    exists at: nat :: FirstFault(c, ctx, lines, expected, at, problem)
  }

  lemma AllReadSplits(c: Codec, ctx: nat -> bool, lines: seq<bytes>, expected: nat)
    requires lines != []
    ensures AllRead(c, ctx, lines, expected) <==>
      ReadsAt(c, ctx, lines[0], expected) && AllRead(c, ctx, lines[1..], expected + 1)
  {
    hide ReadsAt;
    var rest := lines[1..];
    if AllRead(c, ctx, lines, expected) {
      assert ReadsAt(c, ctx, lines[0], expected + 0);
      forall k | 0 <= k < |rest| ensures ReadsAt(c, ctx, rest[k], expected + 1 + k) {
        assert ReadsAt(c, ctx, lines[k + 1], expected + (k + 1));
      }
    }
    if ReadsAt(c, ctx, lines[0], expected) && AllRead(c, ctx, rest, expected + 1) {
      forall k | 0 <= k < |lines| ensures ReadsAt(c, ctx, lines[k], expected + k) {
        assert k > 0 ==> ReadsAt(c, ctx, rest[k - 1], expected + 1 + (k - 1));
      }
    }
  }

  lemma FirstFaultMoves(
    c: Codec, ctx: nat -> bool, lines: seq<bytes>, expected: nat, at: nat, problem: JournalError)
    requires lines != [] && ReadsAt(c, ctx, lines[0], expected) && at >= 1
    ensures FirstFault(c, ctx, lines, expected, at, problem) <==>
      FirstFault(c, ctx, lines[1..], expected + 1, at - 1, problem)
  {
    hide ReadsAt, Fault;
    if at < |lines| {
      AllReadSplits(c, ctx, lines[..at], expected);
      assert lines[..at][1..] == lines[1..][..at - 1] && lines[..at][0] == lines[0];
    }
  }

  // decodeStream accepts exactly the streams whose k-th line is a sound record
  // with number k, and otherwise reports the first line that is not.
  lemma {:induction false} DecodedIff(
    c: Codec, ctx: nat -> bool, input: Scanned, expected: nat, operationID: string)
    requires expected >= 1
    ensures var r := Decoded(c, ctx, input, expected, operationID);
      && (r.Success? <==> !input.tooLong && AllRead(c, ctx, input.lines, expected))
      && (forall problem :: r == Failure(problem) <==>
            || (problem == LineTooLong && input.tooLong && AllRead(c, ctx, input.lines, expected))
            || Faulty(c, ctx, input.lines, expected, problem))
    decreases |input.lines|
  {
    hide ReadsAt, Fault;
    if input.lines == [] {
    } else {
      ReadIff(c, ctx, input.lines[0], expected);
      AllReadSplits(c, ctx, input.lines, expected);
      assert AllRead(c, ctx, input.lines[..0], expected);
      if !ReadsAt(c, ctx, input.lines[0], expected) {
        FaultIsFirst(c, ctx, input.lines, expected);
      } else {
        var rest := input.(lines := input.lines[1..]);
        DecodedIff(c, ctx, rest, expected + 1, operationID);
        FaultComesLater(c, ctx, input.lines, expected);
      }
    }
  }

  lemma FaultIsFirst(c: Codec, ctx: nat -> bool, lines: seq<bytes>, expected: nat)
    requires lines != [] && !ReadsAt(c, ctx, lines[0], expected)
    ensures forall problem ::
      Faulty(c, ctx, lines, expected, problem) <==> Fault(c, ctx, lines[0], expected, problem)
  {
    hide ReadsAt, Fault;
    forall problem
      ensures Faulty(c, ctx, lines, expected, problem) <==> Fault(c, ctx, lines[0], expected, problem)
    {
      if at: nat :| FirstFault(c, ctx, lines, expected, at, problem) {
        if at > 0 {
          AllReadSplits(c, ctx, lines[..at], expected);
        }
      }
      if Fault(c, ctx, lines[0], expected, problem) {
        assert FirstFault(c, ctx, lines, expected, 0, problem);
      }
    }
  }

  lemma FaultComesLater(c: Codec, ctx: nat -> bool, lines: seq<bytes>, expected: nat)
    requires lines != [] && ReadsAt(c, ctx, lines[0], expected)
    ensures forall problem ::
      Faulty(c, ctx, lines, expected, problem) <==> Faulty(c, ctx, lines[1..], expected + 1, problem)
  {
    ReadIff(c, ctx, lines[0], expected);
    hide ReadsAt, Fault;
    forall problem
      ensures Faulty(c, ctx, lines, expected, problem) <==> Faulty(c, ctx, lines[1..], expected + 1, problem)
    {
      if at: nat :| FirstFault(c, ctx, lines, expected, at, problem) {
        if at > 0 {
          FirstFaultMoves(c, ctx, lines, expected, at, problem);
        }
      }
      var rest, second := lines[1..], expected + 1;
      if at: nat :| FirstFault(c, ctx, rest, second, at, problem) {
        FirstFaultMoves(c, ctx, lines, expected, at + 1, problem);
      }
    }
  }

  // What an accepted stream yields: one sound record a line, numbered on from `expected`.
  lemma {:induction false} DecodedYields(c: Codec, ctx: nat -> bool, input: Scanned, expected: nat)
    requires expected >= 1 && Decoded(c, ctx, input, expected, "").Success?
    ensures var replay := Decoded(c, ctx, input, expected, "").value;
      && replay.lastSequence == expected - 1 + |input.lines| && |replay.events| == |input.lines|
      && forall k :: 0 <= k < |input.lines| ==> Sound(c, input.lines[k], expected + k, replay.events[k])
    decreases |input.lines|
  {
    if input.lines == [] {
    } else {
      var rest := input.(lines := input.lines[1..]);
      DecodedYields(c, ctx, rest, expected + 1);
      ReadIff(c, ctx, input.lines[0], expected);
      hide Sound;
      var replay, later := Decoded(c, ctx, input, expected, "").value, Decoded(c, ctx, rest, expected + 1, "").value;
      forall k | 0 <= k < |input.lines| ensures Sound(c, input.lines[k], expected + k, replay.events[k]) {
        if k > 0 {
          assert Sound(c, rest.lines[k - 1], expected + 1 + (k - 1), later.events[k - 1]);
        }
      }
    }
  }

  // What reading a scanned stream must return, in the codec's terms.
  ghost predicate Means(
    c: Codec, ctx: nat -> bool, input: Scanned, operationID: string, r: Result<Replay, JournalError>)
  {
    && (r.Success? <==> !input.tooLong && AllRead(c, ctx, input.lines, 1))
    && (forall problem :: r == Failure(problem) <==>
          || (problem == LineTooLong && input.tooLong && AllRead(c, ctx, input.lines, 1))
          || Faulty(c, ctx, input.lines, 1, problem))
    && (r.Success? ==> Yields(c, input.lines, operationID, r.value))
  }

  ghost predicate Yields(c: Codec, lines: seq<bytes>, operationID: string, replay: Replay) {
    exists all: seq<Envelope> ::
      && |all| == |lines| && replay == Replay(Only(all, operationID), |lines|)
      && forall k :: 0 <= k < |lines| ==> Sound(c, lines[k], 1 + k, all[k])
  }

  lemma DecodedMeans(c: Codec, ctx: nat -> bool, input: Scanned, operationID: string)
    ensures Means(c, ctx, input, operationID, Decoded(c, ctx, input, 1, operationID))
  {
    hide Sound, Decoded, AllRead, Faulty;
    DecodedIff(c, ctx, input, 1, operationID);
    DecodedIff(c, ctx, input, 1, "");
    if Decoded(c, ctx, input, 1, "").Success? {
      DecodedYields(c, ctx, input, 1);
      var all := Decoded(c, ctx, input, 1, "").value.events;
      OnlyAny(all);
      if operationID != "" {
        ReplaySelectsFromAll(c, ctx, input, 1, operationID);
      }
      assert Yields(c, input.lines, operationID, Decoded(c, ctx, input, 1, operationID).value);
    }
  }

  lemma {:induction false} OnlyAny(events: seq<Envelope>)
    ensures Only(events, "") == events
  {
    if events != [] {
      OnlyAny(events[1..]);
    }
  }

  // The positions of the events of one operation, in order.
  ghost predicate Picks(events: seq<Envelope>, operationID: string, at: seq<nat>) {
    && (forall j, k :: 0 <= j < k < |at| ==> at[j] < at[k])
    && (forall j :: 0 <= j < |at| ==> at[j] < |events|)
    && (forall k: nat :: k < |events| ==>
          (k in at <==> operationID == "" || events[k].event.operationID == operationID))
  }

  function Moved(at: seq<nat>): (r: seq<nat>)
    ensures |r| == |at| && forall j :: 0 <= j < |at| ==> r[j] == at[j] + 1
  {
    seq(|at|, j requires 0 <= j < |at| => at[j] + 1)
  }

  lemma InMoved(at: seq<nat>, k: nat)
    ensures k in Moved(at) <==> k > 0 && k - 1 in at
  {
    if k > 0 && k - 1 in at {
      var j :| 0 <= j < |at| && at[j] == k - 1;
      assert Moved(at)[j] == k;
    }
  }

  // These are the events at those positions.
  ghost predicate At(events: seq<Envelope>, at: seq<nat>, picked: seq<Envelope>) {
    |picked| == |at| && forall j :: 0 <= j < |at| ==> at[j] < |events| && picked[j] == events[at[j]]
  }

  // The selection keeps the events of that operation, each once and in order.
  lemma {:induction false} OnlyPicks(events: seq<Envelope>, operationID: string) returns (at: seq<nat>)
    ensures Picks(events, operationID, at) && At(events, at, Only(events, operationID))
  {
    hide Picks, At, Kept, Moved;
    if events == [] {
      at := [];
      NothingPicked(operationID);
    } else {
      var later := OnlyPicks(events[1..], operationID);
      var first := if operationID == "" || events[0].event.operationID == operationID then [0] else [];
      at := first + Moved(later);
      PicksFirst(events, operationID, later, first);
      AtFirst(events, operationID, later, first, Only(events[1..], operationID));
    }
  }

  lemma NothingPicked(operationID: string)
    ensures Picks([], operationID, []) && At([], [], [])
  {
  }

  lemma AtFirst(
    events: seq<Envelope>, operationID: string, later: seq<nat>, first: seq<nat>, rest: seq<Envelope>)
    requires events != [] && At(events[1..], later, rest)
    requires first == if operationID == "" || events[0].event.operationID == operationID then [0] else []
    ensures At(events, first + Moved(later), Kept(events[0], operationID) + rest)
  {
    var at, picked, n := first + Moved(later), Kept(events[0], operationID) + rest, |first|;
    forall j | 0 <= j < |at| ensures at[j] < |events| && picked[j] == events[at[j]] {
      if j >= n {
        assert at[j] == later[j - n] + 1 && picked[j] == rest[j - n];
      }
    }
  }

  lemma PicksFirst(events: seq<Envelope>, operationID: string, later: seq<nat>, first: seq<nat>)
    requires events != [] && Picks(events[1..], operationID, later)
    requires first == if operationID == "" || events[0].event.operationID == operationID then [0] else []
    ensures Picks(events, operationID, first + Moved(later))
  {
    var at := first + Moved(later);
    forall k: nat | k < |events|
      ensures k in at <==> operationID == "" || events[k].event.operationID == operationID
    {
      InMoved(later, k);
      assert k in at <==> k in first || k in Moved(later);
      assert k > 0 ==> events[1..][k - 1] == events[k];
    }
  }

  // ---------- What a journal writes, and what reading it gives back ----------

  ghost predicate Storable(c: Codec, events: seq<Event>) {
    forall k :: 0 <= k < |events| ==> Encoded(c, k + 1, events[k]).Some?
  }

  ghost function Written(c: Codec, events: seq<Event>): (lines: seq<bytes>)
    requires Storable(c, events)
    ensures |lines| == |events|
  {
    seq(|events|, k requires 0 <= k < |events| => Encoded(c, k + 1, events[k]).value)
  }

  // The events as they come back: numbered from one, in normal form.
  ghost function Numbered(c: Codec, events: seq<Event>): (envelopes: seq<Envelope>)
    requires Storable(c, events)
    ensures |envelopes| == |events|
  {
    seq(|events|, k requires 0 <= k < |events| =>
      Sealed(c, k + 1, events[k]).value.(event := c.normal(events[k])))
  }

  lemma WrittenIsClean(c: Codec, events: seq<Event>, k: nat)
    requires CodecOk(c) && Storable(c, events) && k < |events|
    ensures CleanLine(Written(c, events)[k])
  {
    assert ReadsBack(c, Sealed(c, k + 1, events[k]).value);
  }

  // A written line reads back under its own number only, and only if its event is proper.
  lemma WrittenReads(c: Codec, events: seq<Event>, k: nat, sequence: nat)
    requires CodecOk(c) && Storable(c, events) && k < |events|
    ensures Read(c, Written(c, events)[k], sequence).Success? <==> sequence == k + 1 && Proper(events[k])
    ensures Proper(events[k]) ==> Read(c, Written(c, events)[k], k + 1) == Success(Numbered(c, events)[k])
  {
    assert ReadsBack(c, Sealed(c, k + 1, events[k]).value);
    assert NormalOk(c, events[k]);
  }

  ghost predicate Readable(c: Codec, ctx: nat -> bool, events: seq<Event>)
    requires Storable(c, events)
  {
    forall k :: 0 <= k < |events| ==> ReadableAt(c, ctx, events, k)
  }

  ghost predicate ReadableAt(c: Codec, ctx: nat -> bool, events: seq<Event>, k: nat)
    requires Storable(c, events) && k < |events|
  {
    Proper(events[k]) && |Written(c, events)[k]| < SCAN_LIMIT && !ctx(k + 1)
  }

  // What a scanner makes of the written lines.
  lemma ScanWritten(c: Codec, events: seq<Event>)
    requires CodecOk(c) && Storable(c, events)
    ensures Scan(JoinLines(Written(c, events))) == ShortPrefix(Written(c, events))
  {
    hide CodecOk, Storable, CleanLine, Scan, JoinLines, ShortPrefix;
    var lines := Written(c, events);
    forall k | 0 <= k < |lines| ensures CleanLine(lines[k]) {
      WrittenIsClean(c, events, k);
    }
    ScanUndoesJoin(lines);
  }

  lemma AcceptedIffReadable(c: Codec, ctx: nat -> bool, events: seq<Event>)
    requires CodecOk(c) && Storable(c, events)
    ensures Decoded(c, ctx, ShortPrefix(Written(c, events)), 1, "").Success? <==> Readable(c, ctx, events)
    ensures Readable(c, ctx, events) ==> ShortPrefix(Written(c, events)) == Scanned(Written(c, events), false)
  {
    hide CodecOk, Storable, Decoded, ShortPrefix, Read, ReadsAt;
    var lines := Written(c, events);
    var input := ShortPrefix(lines);
    ShortPrefixWhole(lines);
    DecodedIff(c, ctx, input, 1, "");
    if Readable(c, ctx, events) {
      forall k | 0 <= k < |lines| ensures |lines[k]| < SCAN_LIMIT && ReadsAt(c, ctx, lines[k], 1 + k) {
        assert ReadableAt(c, ctx, events, k);
        WrittenReadsAt(c, ctx, events, k);
      }
      assert input == Scanned(lines, false);
    }
    if Decoded(c, ctx, input, 1, "").Success? {
      assert input.lines == lines;
      forall k | 0 <= k < |events| ensures ReadableAt(c, ctx, events, k) {
        assert ReadsAt(c, ctx, input.lines[k], 1 + k);
        WrittenReadsAt(c, ctx, events, k);
        assert |lines[k]| < SCAN_LIMIT;
      }
    }
  }

  lemma WrittenReadsAt(c: Codec, ctx: nat -> bool, events: seq<Event>, k: nat)
    requires CodecOk(c) && Storable(c, events) && k < |events|
    ensures ReadsAt(c, ctx, Written(c, events)[k], 1 + k) <==> Proper(events[k]) && !ctx(k + 1)
  {
    WrittenReads(c, events, k, 1 + k);
    ReadIff(c, ctx, Written(c, events)[k], 1 + k);
  }

  // The round trip: reading everything gives back every event in order,
  // numbered 1..n, and fails exactly when an event is improper, a line is too
  // long for the scanner or the context expires on the way.
  lemma RoundTrip(c: Codec, ctx: nat -> bool, events: seq<Event>)
    requires CodecOk(c) && Storable(c, events)
    ensures var all := Decoded(c, ctx, Scan(JoinLines(Written(c, events))), 1, "");
      && (all.Success? <==> Readable(c, ctx, events))
      && (all.Success? ==> all.value == Replay(Numbered(c, events), |events|))
  {
    hide CodecOk, Scan, JoinLines, Decoded, ShortPrefix, Read, ReadsAt, Sound;
    ScanWritten(c, events);
    AcceptedIffReadable(c, ctx, events);
    if Readable(c, ctx, events) {
      var lines := Written(c, events);
      DecodedYields(c, ctx, Scanned(lines, false), 1);
      var replay := Decoded(c, ctx, Scanned(lines, false), 1, "").value;
      forall k | 0 <= k < |events| ensures replay.events[k] == Numbered(c, events)[k] {
        ReadIff(c, ctx, lines[k], 1 + k);
        assert Sound(c, lines[k], 1 + k, replay.events[k]) && ReadableAt(c, ctx, events, k);
        WrittenReads(c, events, k, 1 + k);
      }
      assert replay.events == Numbered(c, events);
    }
  }

  // A written line is read as number k exactly when it is the k-th written one.
  lemma ReadsAsItself(c: Codec, ctx: nat -> bool, events: seq<Event>, line: bytes, k: nat)
    requires CodecOk(c) && Storable(c, events) && Readable(c, ctx, events) && !ctx(k + 1)
    requires line in Written(c, events)
    ensures ReadsAt(c, ctx, line, k + 1) <==> k < |events| && line == Written(c, events)[k]
    ensures CleanLine(line) && |line| < SCAN_LIMIT
  {
    hide Read, Sound, ReadsBack, NormalOk;
    var j :| 0 <= j < |events| && Written(c, events)[j] == line;
    assert ReadableAt(c, ctx, events, j);
    WrittenIsClean(c, events, j);
    WrittenReads(c, events, j, k + 1);
    ReadIff(c, ctx, line, k + 1);
    if k < |events| {
      assert ReadableAt(c, ctx, events, k);
      WrittenReads(c, events, k, k + 1);
    }
  }

  // Lines dropped, repeated or moved: what is left is accepted exactly when it
  // is a prefix of what was written.
  lemma OnlyPrefixesAreAccepted(
    c: Codec, ctx: nat -> bool, events: seq<Event>, lines: seq<bytes>, operationID: string)
    requires CodecOk(c) && Storable(c, events) && Readable(c, ctx, events)
    requires forall k :: !ctx(k)
    requires forall k :: 0 <= k < |lines| ==> lines[k] in Written(c, events)
    ensures Decoded(c, ctx, Scan(JoinLines(lines)), 1, operationID).Success? <==> lines <= Written(c, events)
  {
    hide CodecOk, Storable, Readable, Scan, JoinLines, Decoded, ShortPrefix, Read, ReadsAt, CleanLine;
    var written := Written(c, events);
    forall k | 0 <= k < |lines|
      ensures CleanLine(lines[k]) && |lines[k]| < SCAN_LIMIT
      ensures ReadsAt(c, ctx, lines[k], 1 + k) <==> k < |written| && lines[k] == written[k]
    {
      ReadsAsItself(c, ctx, events, lines[k], k);
    }
    ScanUndoesJoin(lines);
    ShortPrefixWhole(lines);
    DecodedIff(c, ctx, Scanned(lines, false), 1, operationID);
    assert ShortPrefix(lines) == Scanned(lines, false);
    if forall k :: 0 <= k < |lines| ==> ReadsAt(c, ctx, lines[k], 1 + k) {
      assert lines != [] ==> ReadsAt(c, ctx, lines[|lines| - 1], 1 + (|lines| - 1));
      assert forall k :: 0 <= k < |lines| ==> k < |written| && lines[k] == written[k];
      assert lines <= written;
    }
  }

  // ---------- Appending ----------

  lemma WrittenSnoc(c: Codec, events: seq<Event>, e: Event)
    requires Storable(c, events) && Encoded(c, |events| + 1, e).Some?
    ensures Storable(c, events + [e])
    ensures Written(c, events + [e]) == Written(c, events) + [Encoded(c, |events| + 1, e).value]
  {
  }

  // joinLines
  method Joined(lines: seq<bytes>) returns (data: bytes)
    ensures data == JoinLines(lines)
  {
    data := [];
    for k := 0 to |lines|
      invariant data == JoinLines(lines[..k])
    {
      assert lines[..k + 1] == lines[..k] + [lines[k]];
      JoinSnoc(lines[..k], lines[k]);
      data := data + lines[k];
      data := data + [NEWLINE];
    }
    assert lines[..|lines|] == lines;
  }

  // encodeEnvelope
  method EncodeEnvelope(c: Codec, sequence: nat, e: Event) returns (r: Option<(Envelope, bytes)>)
    ensures r.Some? <==> Encoded(c, sequence, e).Some?
    ensures r.Some? ==> Some(r.value.0) == Sealed(c, sequence, e) && Some(r.value.1) == Encoded(c, sequence, e)
  {
    var encoded := c.marshalEvent(e);
    if encoded.None? {
      return None;
    }
    var envelope := Envelope(sequence, c.digest(encoded.value), e);
    var line := c.marshal(envelope);
    return if line.None? then None else Some((envelope, line.value));
  }

  // What a read of the whole log must return.
  ghost predicate ReadsAll(c: Codec, ctx: nat -> bool, events: seq<Event>, r: Result<Replay, JournalError>)
    requires Storable(c, events)
  {
    && (r.Success? <==> Readable(c, ctx, events))
    && (r.Success? ==> r.value == Replay(Numbered(c, events), |events|))
  }

  ghost predicate ReadsOne(
    c: Codec, ctx: nat -> bool, events: seq<Event>, operationID: string, r: Result<Replay, JournalError>)
    requires Storable(c, events)
  {
    && (r.Success? <==> operationID != "" && Readable(c, ctx, events))
    && (r.Success? ==> r.value == Replay(Only(Numbered(c, events), operationID), |events|))
  }

  lemma ReadsFollow(c: Codec, ctx: nat -> bool, events: seq<Event>, operationID: string)
    requires CodecOk(c) && Storable(c, events)
    ensures var data := Scan(JoinLines(Written(c, events)));
      && ReadsAll(c, ctx, events, Decoded(c, ctx, data, 1, ""))
      && (operationID != "" ==> ReadsOne(c, ctx, events, operationID, Decoded(c, ctx, data, 1, operationID)))
  {
    RoundTrip(c, ctx, events);
    if operationID != "" {
      ReplaySelectsFromAll(c, ctx, Scan(JoinLines(Written(c, events))), 1, operationID);
    }
  }

  class MemoryStore {
    const codec: Codec
    var lines: seq<bytes>
    var next: nat
    // The events accepted so far.
    ghost var events: seq<Event>

    ghost predicate Valid()
      reads this
    {
      && CodecOk(codec) && next == |events| && Storable(codec, events) && lines == Written(codec, events)
      && forall k :: 0 <= k < |events| ==> Proper(events[k])
    }

    constructor (codec: Codec)
      requires CodecOk(codec)
      ensures Valid() && this.codec == codec && events == []
    {
      this.codec, lines, next, events := codec, [], 0, [];
    }

    method Append(expired: bool, event: Event) returns (r: Result<Envelope, JournalError>)
      requires Valid()
      modifies this
      ensures Valid()
      ensures r.Success? <==> !expired && Proper(event) && Encoded(codec, |old(events)| + 1, event).Some?
      ensures events == if r.Success? then old(events) + [event] else old(events)
      ensures r.Success? ==> Some(r.value) == Sealed(codec, |events|, event)
    {
      if expired {
        return Failure(Expired);
      }
      if !Proper(event) {
        return Failure(InvalidEvent);
      }
      next := next + 1;
      var encoded := EncodeEnvelope(codec, next, event);
      if encoded.None? {
        next := next - 1;
        return Failure(EncodeFailed);
      }
      WrittenSnoc(codec, events, event);
      lines, events := lines + [encoded.value.1], events + [event];
      return Success(encoded.value.0);
    }

    method All(ctx: nat -> bool) returns (r: Result<Replay, JournalError>)
      requires Valid()
      ensures ReadsAll(codec, ctx, events, r)
    {
      var data := Joined(lines);
      r := DecodeStream(codec, ctx, data, "");
      ReadsFollow(codec, ctx, events, "");
    }

    method ReplayOf(ctx: nat -> bool, operationID: string) returns (r: Result<Replay, JournalError>)
      requires Valid()
      ensures ReadsOne(codec, ctx, events, operationID, r)
    {
      if operationID == "" {
        return Failure(NoOperation);
      }
      var data := Joined(lines);
      r := DecodeStream(codec, ctx, data, operationID);
      ReadsFollow(codec, ctx, events, operationID);
    }
  }

  // ---------- The file store, over a file that outlives it ----------

  class LogFile {
    var content: bytes
    // What was ever appended to it.
    ghost var events: seq<Event>

    ghost predicate Holds(c: Codec)
      reads this
    {
      Storable(c, events) && content == JoinLines(Written(c, events))
    }

    constructor ()
      ensures content == [] && events == [] && forall c :: Holds(c)
    {
      content, events := [], [];
    }
  }

  class FileStore {
    const codec: Codec
    const file: LogFile
    var next: nat
    var closed: bool

    ghost predicate Valid()
      reads this, file
    {
      CodecOk(codec) && file.Holds(codec) && (closed || next == |file.events|)
    }

    constructor (codec: Codec, file: LogFile, next: nat)
      ensures this.codec == codec && this.file == file && this.next == next && !closed
    {
      this.codec, this.file, this.next, closed := codec, file, next, false;
    }

    // OpenFileStore: numbering goes on where the file stops, and a file that
    // does not read back is refused, whoever wrote it.
    static method Open(codec: Codec, file: LogFile) returns (r: Result<FileStore, JournalError>)
      ensures var input := Scan(file.content);
        && (r.Success? <==> !input.tooLong && AllRead(codec, NeverExpires, input.lines, 1))
        && (r.Success? ==> r.value.next == |input.lines|)
        && forall problem :: r == Failure(problem) <==>
             || (problem == LineTooLong && input.tooLong && AllRead(codec, NeverExpires, input.lines, 1))
             || Faulty(codec, NeverExpires, input.lines, 1, problem)
      ensures r.Success? ==>
        fresh(r.value) && !r.value.closed && r.value.file == file && r.value.codec == codec
      ensures CodecOk(codec) && file.Holds(codec) ==>
        && (r.Success? <==> Readable(codec, NeverExpires, file.events))
        && (r.Success? ==> r.value.Valid())
    {
      var replay := DecodeStream(codec, NeverExpires, file.content, "");
      if CodecOk(codec) && file.Holds(codec) {
        ReadsFollow(codec, NeverExpires, file.events, "");
      }
      if replay.Failure? {
        return Failure(replay.error);
      }
      var store := new FileStore(codec, file, replay.value.lastSequence);
      return Success(store);
    }

    // Unlike MemoryStore.Append, this does not look at the event.
    method Append(expired: bool, event: Event) returns (r: Result<Envelope, JournalError>)
      modifies this, file
      ensures closed == old(closed)
      ensures r.Success? <==> !expired && !closed && Encoded(codec, old(next) + 1, event).Some?
      ensures r.Success? ==>
        && next == old(next) + 1 && Some(r.value) == Sealed(codec, next, event)
        && file.content == old(file.content) + Encoded(codec, next, event).value + [NEWLINE]
        && file.events == old(file.events) + [event]
      ensures r.Failure? ==>
        next == old(next) && file.content == old(file.content) && file.events == old(file.events)
      ensures old(Valid()) ==> Valid()
    {
      if expired {
        return Failure(Expired);
      }
      if closed {
        return Failure(Closed);
      }
      var encoded := EncodeEnvelope(codec, next + 1, event);
      if encoded.None? {
        return Failure(EncodeFailed);
      }
      if Valid() {
        WrittenSnoc(codec, file.events, event);
        JoinSnoc(Written(codec, file.events), encoded.value.1);
      }
      file.content := file.content + encoded.value.1 + [NEWLINE];
      file.events := file.events + [event];
      next := next + 1;
      return Success(encoded.value.0);
    }

    // All, or with an operation Replay: the file's meaning, on any bytes.
    method ReadFile(ctx: nat -> bool, operationID: string) returns (r: Result<Replay, JournalError>)
      ensures closed ==> r == Failure(Closed)
      ensures !closed ==> Means(codec, ctx, Scan(file.content), operationID, r)
      ensures !closed && Valid() ==>
        if operationID == "" then ReadsAll(codec, ctx, file.events, r)
        else ReadsOne(codec, ctx, file.events, operationID, r)
    {
      if closed {
        return Failure(Closed);
      }
      r := DecodeStream(codec, ctx, file.content, operationID);
      if Valid() {
        ReadsFollow(codec, ctx, file.events, operationID);
      }
    }

    method Close()
      modifies this
      ensures closed && (old(Valid()) ==> Valid())
    {
      closed := true;
    }
  }

  // context.Background
  function NeverExpires(k: nat): bool {
    false
  }

  // ---------- A journal that cannot be opened again ----------

  // FileStore accepts an event that its own reader rejects: after the append the
  // file is refused by every later Open.
  method ImproperEventLocksTheFile(codec: Codec, event: Event)
    returns (atFirst: bool, appended: bool, afterwards: bool)
    requires CodecOk(codec) && !Proper(event) && Encoded(codec, 1, event).Some?
    ensures atFirst && appended && !afterwards
  {
    var file := new LogFile();
    var first := FileStore.Open(codec, file);
    var result := first.value.Append(false, event);
    first.value.Close();
    assert file.events == [event];
    var second := FileStore.Open(codec, file);
    assert !ReadableAt(codec, NeverExpires, file.events, 0);
    return first.Success?, result.Success?, second.Success?;
  }

  // An event without an operation, and a codec that can write just that.
  const NAMELESS := Event("", "accepted", 0, 0, 0, [])

  function SmallCodec(): Codec {
    Codec(
      e => if e == NAMELESS then Some([]) else None,
      e => if e == Envelope(1, "", NAMELESS) then Some([65]) else None,
      line => if line == [65] then Some(Envelope(1, "", NAMELESS)) else None,
      e => e,
      _ => "")
  }

  lemma SuchAnEventExists()
    ensures CodecOk(SmallCodec()) && !Proper(NAMELESS) && Encoded(SmallCodec(), 1, NAMELESS).Some?
  {
  }
}
