// catalog/catalog.go: operation records under revision compare-and-swap, the
// idempotency index, and the write-once artifact table.
module Catalogs {
  import opened Prelude
  import opened Writers

  datatype OpState = Accepted | Running | Retrying | Completed | Failed | Cancelled

  datatype Record = Record(
    id: string, fileID: string, key: string, state: OpState, revision: nat,
    attempt: int, fence: nat, owner: string, result: Option<CommitReceipt>)

  datatype Artifact = Artifact(receipt: CommitReceipt, operationID: string)

  datatype Tables = Tables(
    operations: map<string, Record>, idempotency: map<string, string>, artifacts: map<string, Artifact>)

  datatype CatalogError =
    | Unnamed | KeyOfOtherFile | AlreadyExists | NotFound
    | RevisionConflict | IdentityChanged | ArtifactConflict

  const EMPTY := Tables(map[], map[], map[])

  // ---------- The operations on values ----------

  datatype Submission = Created(record: Record) | Existing(record: Record) | Rejected(error: CatalogError)

  // A key in the index without its record reads as the zero record, as a Go map does.
  function Lookup(t: Tables, id: string): Record {
    if id in t.operations then t.operations[id] else Record("", "", "", Accepted, 0, 0, 0, "", None)
  }

  function Create(t: Tables, r: Record): Submission {
    if r.id == "" || r.fileID == "" || r.key == "" then Rejected(Unnamed)
    else if r.key in t.idempotency then
      var existing := Lookup(t, t.idempotency[r.key]);
      if existing.fileID != r.fileID then Rejected(KeyOfOtherFile) else Existing(existing)
    else if r.id in t.operations then Rejected(AlreadyExists)
    else Created(r.(revision := 1))
  }

  function AfterCreate(t: Tables, r: Record): Tables {
    var s := Create(t, r);
    if s.Created? then
      t.(operations := t.operations[r.id := s.record], idempotency := t.idempotency[r.key := r.id])
    else t
  }

  function Update(t: Tables, r: Record, expected: nat): Result<Record, CatalogError> {
    if r.id !in t.operations then Failure(NotFound)
    else
      var current := t.operations[r.id];
      if current.revision != expected then Failure(RevisionConflict)
      else if current.fileID != r.fileID || current.key != r.key then Failure(IdentityChanged)
      else Success(r.(revision := current.revision + 1))
  }

  function AfterUpdate(t: Tables, r: Record, expected: nat): Tables {
    var u := Update(t, r, expected);
    if u.Success? then t.(operations := t.operations[r.id := u.value]) else t
  }

  function PutError(t: Tables, a: Artifact): Option<CatalogError> {
    var f := a.receipt.fileID;
    if f == "" || a.operationID == "" then Some(Unnamed)
    else if f in t.artifacts &&
            (t.artifacts[f].receipt.version != a.receipt.version || t.artifacts[f].receipt.digest != a.receipt.digest)
    then Some(ArtifactConflict)
    else None
  }

  function AfterPut(t: Tables, a: Artifact): Tables {
    if PutError(t, a).Some? || a.receipt.fileID in t.artifacts then t
    else t.(artifacts := t.artifacts[a.receipt.fileID := a])
  }

  ghost function InState(t: Tables, state: OpState): set<string> {
    set id | id in t.operations && t.operations[id].state == state
  }

  // ---------- The catalog ----------

  class Catalog {
    var operations: map<string, Record>
    var idempotency: map<string, string>
    var artifacts: map<string, Artifact>

    function State(): Tables
      reads this
    {
      Tables(operations, idempotency, artifacts)
    }

    constructor ()
      ensures State() == EMPTY
    {
      operations, idempotency, artifacts := map[], map[], map[];
    }

    method CreateRecord(record: Record) returns (r: Submission)
      modifies this
      ensures r == Create(old(State()), record) && State() == AfterCreate(old(State()), record)
      ensures artifacts == old(artifacts)
      ensures r.Created? <==>
        && record.id != "" && record.fileID != "" && record.key != ""
        && record.key !in old(idempotency) && record.id !in old(operations)
      ensures r.Created? ==>
        && r.record == record.(revision := 1) && operations == old(operations)[record.id := r.record]
        && idempotency == old(idempotency)[record.key := record.id]
      ensures r.Existing? ==>
        && record.key in old(idempotency) && r.record.fileID == record.fileID
        && (old(idempotency)[record.key] in operations ==> r.record == operations[old(idempotency)[record.key]])
      ensures !r.Created? ==> operations == old(operations) && idempotency == old(idempotency)
    {
      if record.id == "" || record.fileID == "" || record.key == "" {
        return Rejected(Unnamed);
      }
      if record.key in idempotency {
        var existing := Lookup(State(), idempotency[record.key]);
        if existing.fileID != record.fileID {
          return Rejected(KeyOfOtherFile);
        }
        return Existing(existing);
      }
      if record.id in operations {
        return Rejected(AlreadyExists);
      }
      var stored := record.(revision := 1);
      operations := operations[stored.id := stored];
      idempotency := idempotency[stored.key := stored.id];
      return Created(stored);
    }

    method UpdateRecord(record: Record, expected: nat) returns (r: Result<Record, CatalogError>)
      modifies this
      ensures r == Update(old(State()), record, expected) && State() == AfterUpdate(old(State()), record, expected)
      ensures idempotency == old(idempotency) && artifacts == old(artifacts)
      ensures r.Success? <==>
        && record.id in old(operations) && old(operations)[record.id].revision == expected
        && old(operations)[record.id].fileID == record.fileID && old(operations)[record.id].key == record.key
      ensures r.Success? ==>
        r.value == record.(revision := expected + 1) && operations == old(operations)[record.id := r.value]
      ensures r.Failure? ==> operations == old(operations)
      ensures r == Failure(RevisionConflict) <==>
        record.id in old(operations) && old(operations)[record.id].revision != expected
    {
      if record.id !in operations {
        return Failure(NotFound);
      }
      var current := operations[record.id];
      if current.revision != expected {
        return Failure(RevisionConflict);
      }
      if current.fileID != record.fileID || current.key != record.key {
        return Failure(IdentityChanged);
      }
      var stored := record.(revision := current.revision + 1);
      operations := operations[stored.id := stored];
      return Success(stored);
    }

    method PutArtifact(record: Artifact) returns (e: Option<CatalogError>)
      modifies this
      ensures e == PutError(old(State()), record) && State() == AfterPut(old(State()), record)
      ensures operations == old(operations) && idempotency == old(idempotency)
      ensures e == Some(Unnamed) <==> record.receipt.fileID == "" || record.operationID == ""
      ensures e == Some(ArtifactConflict) <==>
        && record.receipt.fileID != "" && record.operationID != "" && record.receipt.fileID in old(artifacts)
        && var stored := old(artifacts)[record.receipt.fileID].receipt;
           stored.version != record.receipt.version || stored.digest != record.receipt.digest
      ensures e.None? || e.value == Unnamed || e.value == ArtifactConflict
      ensures artifacts ==
        if e.None? && record.receipt.fileID !in old(artifacts)
        then old(artifacts)[record.receipt.fileID := record] else old(artifacts)
    {
      if record.receipt.fileID == "" || record.operationID == "" {
        return Some(Unnamed);
      }
      if record.receipt.fileID in artifacts {
        var current := artifacts[record.receipt.fileID];
        if current.receipt.version != record.receipt.version || current.receipt.digest != record.receipt.digest {
          return Some(ArtifactConflict);
        }
        return None;
      }
      artifacts := artifacts[record.receipt.fileID := record];
      return None;
    }

    // The totals and one entry for each state some operation is in.
    method Counts() returns (counts: map<string, nat>)
      ensures Tally(counts, OperationsKey()) == |operations| && Tally(counts, ArtifactsKey()) == |artifacts|
      ensures forall state :: Tally(counts, StateKey(state)) == |InState(State(), state)|
    {
      hide StateKey, OperationsKey, ArtifactsKey, Counted, Tally;
      counts := map[OperationsKey() := |operations|, ArtifactsKey() := |artifacts|];
      var unseen := operations.Keys;
      CountedNone(counts, State());
      while unseen != {}
        invariant unseen <= operations.Keys && Counted(counts, State(), unseen)
        decreases |unseen|
      {
        var id :| id in unseen;
        var key := StateKey(operations[id].state);
        CountedMore(counts, State(), unseen, id);
        counts := counts[key := Tally(counts, key) + 1];
        unseen := unseen - {id};
      }
      CountedAll(counts, State());
    }
  }

  // The totals are right, and the entries per state but for the operations not yet seen.
  ghost predicate Counted(counts: map<string, nat>, t: Tables, unseen: set<string>) {
    && Tally(counts, OperationsKey()) == |t.operations| && Tally(counts, ArtifactsKey()) == |t.artifacts|
    && forall state :: Tally(counts, StateKey(state)) == |Among(t.operations, t.operations.Keys - unseen, state)|
  }

  lemma CountedNone(counts: map<string, nat>, t: Tables)
    requires counts == map[OperationsKey() := |t.operations|, ArtifactsKey() := |t.artifacts|]
    ensures Counted(counts, t, t.operations.Keys)
  {
    KeysDiffer();
    hide StateKey, OperationsKey, ArtifactsKey;
    forall state ensures |Among(t.operations, t.operations.Keys - t.operations.Keys, state)| == 0 {
      assert Among(t.operations, t.operations.Keys - t.operations.Keys, state) == {};
    }
  }

  lemma CountedMore(counts: map<string, nat>, t: Tables, unseen: set<string>, id: string)
    requires Counted(counts, t, unseen) && id in unseen && unseen <= t.operations.Keys
    ensures var key := StateKey(t.operations[id].state);
      Counted(counts[key := Tally(counts, key) + 1], t, unseen - {id})
  {
    KeysDiffer();
    AmongMore(t.operations, t.operations.Keys - unseen, id);
    hide StateKey, OperationsKey, ArtifactsKey, Among;
    assert (t.operations.Keys - unseen) + {id} == t.operations.Keys - (unseen - {id});
  }

  lemma CountedAll(counts: map<string, nat>, t: Tables)
    requires Counted(counts, t, {})
    ensures Tally(counts, OperationsKey()) == |t.operations| && Tally(counts, ArtifactsKey()) == |t.artifacts|
    ensures forall state :: Tally(counts, StateKey(state)) == |InState(t, state)|
  {
    hide StateKey, OperationsKey, ArtifactsKey;
    forall state ensures InState(t, state) == Among(t.operations, t.operations.Keys - {}, state) {
    }
  }

  function OperationsKey(): string { "operations" }

  function ArtifactsKey(): string { "artifacts" }

  // "state." + record.State
  function StateKey(state: OpState): string {
    "state." +
    match state
    case Accepted => "accepted"
    case Running => "running"
    case Retrying => "retrying"
    case Completed => "completed"
    case Failed => "failed"
    case Cancelled => "cancelled"
  }

  lemma KeysDiffer()
    ensures forall a, b :: StateKey(a) == StateKey(b) ==> a == b
    ensures forall a :: StateKey(a) != OperationsKey() && StateKey(a) != ArtifactsKey()
    ensures OperationsKey() != ArtifactsKey()
  {
    forall a, b | StateKey(a) == StateKey(b) ensures a == b {
      assert StateKey(a)[6] == StateKey(b)[6] && StateKey(a)[7] == StateKey(b)[7];
      assert |StateKey(a)| == |StateKey(b)|;
    }
    forall a ensures StateKey(a) != OperationsKey() && StateKey(a) != ArtifactsKey() {
      assert StateKey(a)[0] == 's';
    }
    assert OperationsKey()[0] == 'o' && ArtifactsKey()[0] == 'a';
  }

  // Reading a Go map of counters.
  function Tally(counts: map<string, nat>, key: string): nat {
    if key in counts then counts[key] else 0
  }

  ghost function Among(operations: map<string, Record>, ids: set<string>, state: OpState): set<string> {
    set id | id in ids && id in operations && operations[id].state == state
  }

  lemma AmongMore(operations: map<string, Record>, seen: set<string>, id: string)
    requires id in operations && id !in seen
    ensures forall state ::
      |Among(operations, seen + {id}, state)| ==
        |Among(operations, seen, state)| + (if state == operations[id].state then 1 else 0)
  {
    forall state ensures Among(operations, seen + {id}, state) ==
      Among(operations, seen, state) + (if state == operations[id].state then {id} else {})
    {
    }
  }

  // ---------- Whole histories ----------

  datatype Call =
    | CallCreate(record: Record)
    | CallUpdate(record: Record, expected: nat)
    | CallPut(artifact: Artifact)

  function After(t: Tables, c: Call): Tables {
    match c
    case CallCreate(r) => AfterCreate(t, r)
    case CallUpdate(r, expected) => AfterUpdate(t, r, expected)
    case CallPut(a) => AfterPut(t, a)
  }

  ghost predicate IsHistory(calls: seq<Call>, h: seq<Tables>) {
    && |h| == |calls| + 1 && h[0] == EMPTY
    && forall k :: 0 <= k < |calls| ==> h[k + 1] == After(h[k], calls[k])
  }

  // The two indexes are inverse to each other: keys and operations are in bijection.
  ghost predicate Paired(t: Tables) {
    && (forall key :: key in t.idempotency ==>
          t.idempotency[key] in t.operations && t.operations[t.idempotency[key]].key == key)
    && (forall id :: id in t.operations ==>
          && t.operations[id].id == id && t.operations[id].revision >= 1
          && t.operations[id].key in t.idempotency && t.idempotency[t.operations[id].key] == id)
  }

  lemma CallKeepsPaired(t: Tables, c: Call)
    requires Paired(t)
    ensures Paired(After(t, c))
  {
  }

  lemma {:induction false} AlwaysPaired(calls: seq<Call>, h: seq<Tables>, i: nat)
    requires IsHistory(calls, h) && i < |h|
    ensures Paired(h[i])
  {
    if i == 0 {
    } else {
      AlwaysPaired(calls, h, i - 1);
      CallKeepsPaired(h[i - 1], calls[i - 1]);
    }
  }

  // What no later call changes: an operation's identity, a key's operation, an
  // artifact; revisions only grow.
  ghost predicate Grown(t: Tables, u: Tables) {
    && (forall id :: id in t.operations ==>
          && id in u.operations && u.operations[id].fileID == t.operations[id].fileID
          && u.operations[id].key == t.operations[id].key
          && (u.operations[id] == t.operations[id] || u.operations[id].revision > t.operations[id].revision))
    && (forall key :: key in t.idempotency ==> key in u.idempotency && u.idempotency[key] == t.idempotency[key])
    && (forall f :: f in t.artifacts ==> f in u.artifacts && u.artifacts[f] == t.artifacts[f])
  }

  lemma CallGrows(t: Tables, c: Call)
    ensures Grown(t, After(t, c))
  {
  }

  // In particular a revision is never reused for different contents.
  lemma {:induction false} HistoryGrows(calls: seq<Call>, h: seq<Tables>, i: nat, j: nat)
    requires IsHistory(calls, h) && i <= j < |h|
    ensures Grown(h[i], h[j])
  {
    if i == j {
    } else {
      HistoryGrows(calls, h, i, j - 1);
      CallGrows(h[j - 1], calls[j - 1]);
    }
  }

  // Submitting under a key again returns its first operation, for ever, or an
  // error that says the key belongs to another file.
  lemma KeyReturnsFirstOperation(calls: seq<Call>, h: seq<Tables>, i: nat, j: nat)
    requires IsHistory(calls, h) && i < j < |calls|
    requires calls[i].CallCreate? && Create(h[i], calls[i].record).Created?
    requires calls[j].CallCreate? && calls[j].record.key == calls[i].record.key
    ensures var again := Create(h[j], calls[j].record);
      && h[j + 1] == h[j]
      && if calls[j].record.id == "" || calls[j].record.fileID == "" then again == Rejected(Unnamed)
         else if calls[j].record.fileID != calls[i].record.fileID then again == Rejected(KeyOfOtherFile)
         else again.Existing? && again.record.id == calls[i].record.id
  {
    assert h[i + 1] == After(h[i], calls[i]);
    HistoryGrows(calls, h, i + 1, j);
    AlwaysPaired(calls, h, j);
  }

  // Of any two updates of one operation that expect the same revision, at most one succeeds.
  lemma OneWinnerPerRevision(calls: seq<Call>, h: seq<Tables>, i: nat, j: nat)
    requires IsHistory(calls, h) && i < j < |calls|
    requires calls[i].CallUpdate? && calls[j].CallUpdate? && calls[i].record.id == calls[j].record.id
    requires calls[i].expected == calls[j].expected
    ensures Update(h[i], calls[i].record, calls[i].expected).Failure?
         || Update(h[j], calls[j].record, calls[j].expected).Failure?
  {
    assert h[i + 1] == After(h[i], calls[i]);
    HistoryGrows(calls, h, i + 1, j);
  }

  // The successful updates of an operation up to time i.
  ghost function Updates(calls: seq<Call>, h: seq<Tables>, id: string, i: nat): nat
    requires IsHistory(calls, h) && i < |h|
  {
    if i == 0 then 0
    else
      var c := calls[i - 1];
      Updates(calls, h, id, i - 1) +
      (if c.CallUpdate? && c.record.id == id && Update(h[i - 1], c.record, c.expected).Success? then 1 else 0)
  }

  // A record's revision is one more than the number of updates that succeeded on it.
  lemma {:induction false} RevisionCountsUpdates(calls: seq<Call>, h: seq<Tables>, id: string, i: nat)
    requires IsHistory(calls, h) && i < |h|
    ensures Updates(calls, h, id, i) ==
      if id in h[i].operations then h[i].operations[id].revision - 1 else 0
  {
    if i == 0 {
    } else {
      RevisionCountsUpdates(calls, h, id, i - 1);
      assert h[i] == After(h[i - 1], calls[i - 1]);
    }
  }
}
