// segmentmerge/writer.go, checkpoint.go and index.go: where a merge leaves its bytes.
module Writers {
  import opened Prelude
  import opened Manifests

  datatype CommitReceipt = CommitReceipt(fileID: string, version: string, size: int, digest: string)

  datatype Draft = Draft(fileID: string, version: string, data: bytes)

  // What MemoryWriter holds, with the staged drafts as values.
  datatype WriterState = WriterState(
    next: nat, drafts: map<string, Draft>, outputs: map<string, CommitReceipt>, data: map<string, bytes>)

  // ---------- Session names: "merge-%d" ----------

  function Decimal(n: nat): (r: string)
    ensures r != "" && forall i :: 0 <= i < |r| ==> '0' <= r[i] <= '9'
  {
    if n < 10 then ['0' + n as char] else Decimal(n / 10) + ['0' + (n % 10) as char]
  }

  // The number that a row of decimal digits stands for.
  function NumberOf(s: string): nat
    requires forall i :: 0 <= i < |s| ==> '0' <= s[i] <= '9'
  {
    if s == "" then 0 else 10 * NumberOf(s[..|s| - 1]) + (s[|s| - 1] as int - '0' as int)
  }

  lemma {:induction false} DecimalReads(n: nat)
    ensures NumberOf(Decimal(n)) == n
  {
    var s := Decimal(n);
    if n < 10 {
      assert NumberOf(s[..0]) == 0;
    } else {
      DecimalReads(n / 10);
      assert s[..|s| - 1] == Decimal(n / 10);
    }
  }

  lemma DecimalInjective(m: nat, n: nat)
    requires Decimal(m) == Decimal(n)
    ensures m == n
  {
    DecimalReads(m);
    DecimalReads(n);
  }

  function SessionName(n: nat): string {
    "merge-" + Decimal(n)
  }

  lemma SessionNameInjective(m: nat, n: nat)
    requires SessionName(m) == SessionName(n)
    ensures m == n
  {
    assert SessionName(m)[6..] == Decimal(m) && SessionName(n)[6..] == Decimal(n);
    DecimalInjective(m, n);
  }

  ghost predicate Issued(next: nat, id: string) {
    exists k: nat :: k <= next && id == SessionName(k)
  }

  // Every staged draft was named by a number already used.
  ghost predicate NamesIssued(w: WriterState) {
    forall id :: id in w.drafts ==> Issued(w.next, id)
  }

  lemma NextNameIsFresh(w: WriterState)
    requires NamesIssued(w)
    ensures SessionName(w.next + 1) !in w.drafts
    ensures forall id :: id in w.drafts ==> Issued(w.next + 1, id)
    ensures Issued(w.next + 1, SessionName(w.next + 1))
  {
    if SessionName(w.next + 1) in w.drafts {
      assert Issued(w.next, SessionName(w.next + 1));
      var k: nat :| k <= w.next && SessionName(w.next + 1) == SessionName(k);
      SessionNameInjective(w.next + 1, k);
    }
  }

  // Why Begin hands out no session: the context expired, or the one to resume
  // is not staged for this file, version and size.
  datatype BeginError = BeginExpired | NoSuchSession

  // ---------- The writer's operations, on values ----------

  function Zeros(n: nat): bytes {
    seq(n, _ => 0)
  }

  // copy(data[offset:], piece)
  function Overwrite(data: bytes, offset: nat, piece: bytes): (r: bytes)
    requires offset + |piece| <= |data|
    ensures |r| == |data|
    ensures forall i :: 0 <= i < |data| ==>
      r[i] == if offset <= i < offset + |piece| then piece[i - offset] else data[i]
  {
    data[..offset] + piece + data[offset + |piece|..]
  }

  // Begin: the session's id and the writer afterwards, or None when the
  // session to resume does not exist or belongs to something else.
  function Begun(w: WriterState, plan: MergePlan): Option<(string, WriterState)>
    requires plan.totalSize >= 0
  {
    if plan.sessionID != "" then
      if plan.sessionID in w.drafts then
        var draft := w.drafts[plan.sessionID];
        if draft.fileID == plan.fileID && draft.version == plan.version && |draft.data| == plan.totalSize as int
        then Some((plan.sessionID, w)) else None
      else None
    else
      var id := SessionName(w.next + 1);
      var draft := Draft(plan.fileID, plan.version, Zeros(plan.totalSize as nat));
      Some((id, w.(next := w.next + 1, drafts := w.drafts[id := draft])))
  }

  predicate AppendFits(w: WriterState, id: string, offset: int, piece: bytes) {
    id in w.drafts && 0 <= offset <= |w.drafts[id].data| - |piece|
  }

  function Appended(w: WriterState, id: string, offset: int, piece: bytes): WriterState
    requires AppendFits(w, id, offset, piece)
  {
    var draft := w.drafts[id];
    w.(drafts := w.drafts[id := draft.(data := Overwrite(draft.data, offset, piece))])
  }

  function ReceiptFor(digest: bytes -> string, draft: Draft): CommitReceipt {
    CommitReceipt(draft.fileID, draft.version, |draft.data|, digest(draft.data))
  }

  function Committed(digest: bytes -> string, w: WriterState, id: string): WriterState
    requires id in w.drafts
  {
    var draft := w.drafts[id];
    WriterState(
      w.next, w.drafts - {id},
      w.outputs[draft.fileID := ReceiptFor(digest, draft)], w.data[draft.fileID := draft.data])
  }

  function Aborted(w: WriterState, id: string): WriterState {
    w.(drafts := w.drafts - {id})
  }

  // validateReceipt
  predicate ReceiptOk(receipt: CommitReceipt) {
    receipt.fileID != "" && receipt.version != "" && receipt.size >= 0 && IsDigestText(receipt.digest)
  }

  // ---------- MemoryWriter and its sessions ----------

  // The built-in copy, byte by byte.
  method CopyInto(buffer: array<byte>, offset: nat, piece: bytes)
    requires offset + |piece| <= buffer.Length
    modifies buffer
    ensures buffer[..] == Overwrite(old(buffer[..]), offset, piece)
  {
    ghost var was := buffer[..];
    for i := 0 to |piece|
      invariant buffer[..] == was[..offset] + piece[..i] + was[offset + i..]
    {
      buffer[offset + i] := piece[i];
    }
    assert piece[..|piece|] == piece;
  }

  class MemoryDraft {
    const fileID: string
    const version: string
    const data: array<byte>

    constructor (fileID: string, version: string, data: array<byte>)
      ensures this.fileID == fileID && this.version == version && this.data == data
    {
      this.fileID, this.version, this.data := fileID, version, data;
    }

    function Value(): Draft
      reads data
    {
      Draft(fileID, version, data[..])
    }
  }

  // No two drafts share a buffer.
  ghost predicate Apart(drafts: map<string, MemoryDraft>) {
    forall i, j :: i in drafts && j in drafts && i != j ==> drafts[i].data != drafts[j].data
  }

  lemma ApartWith(drafts: map<string, MemoryDraft>, id: string, draft: MemoryDraft)
    requires Apart(drafts) && forall i :: i in drafts ==> drafts[i].data != draft.data
    ensures Apart(drafts[id := draft])
  {
  }

  class MemoryWriter {
    var next: nat
    var drafts: map<string, MemoryDraft>
    var outputs: map<string, CommitReceipt>
    var data: map<string, bytes>
    // The value of every staged draft.
    ghost var staged: map<string, Draft>
    ghost var buffers: set<array<byte>>

    ghost function State(): WriterState
      reads this
    {
      WriterState(next, staged, outputs, data)
    }

    ghost predicate Valid()
      reads this, buffers
    {
      && staged.Keys == drafts.Keys
      && (forall id :: id in drafts ==> drafts[id].data in buffers && drafts[id].Value() == staged[id])
      && Apart(drafts)
    }

    constructor ()
      ensures Valid() && fresh(this)
      ensures State() == WriterState(0, map[], map[], map[])
    {
      next, drafts, outputs, data, staged, buffers := 0, map[], map[], map[], map[], {};
    }

    // The parameter `expired` is what ctx.Err() reports on entry.
    method Begin(expired: bool, plan: MergePlan) returns (r: Result<MemorySession, BeginError>)
      requires Valid() && NamesIssued(State()) && plan.totalSize >= 0
      modifies this
      ensures Valid() && NamesIssued(State()) && fresh(buffers - old(buffers))
      ensures r == Failure(BeginExpired) <==> expired
      ensures r == Failure(NoSuchSession) <==> !expired && Begun(old(State()), plan).None?
      ensures r.Failure? ==> State() == old(State()) && drafts == old(drafts)
      ensures r.Success? ==>
        && fresh(r.value) && r.value.owner == this && r.value.Open()
        && (r.value.id, State()) == Begun(old(State()), plan).value
    {
      hide NamesIssued, SessionName, Zeros;
      if expired {
        return Failure(BeginExpired);
      }
      if plan.sessionID != "" {
        if plan.sessionID !in drafts {
          return Failure(NoSuchSession);
        }
        var draft := drafts[plan.sessionID];
        if draft.fileID != plan.fileID || draft.version != plan.version
           || draft.data.Length != plan.totalSize as int {
          return Failure(NoSuchSession);
        }
        var resumed := new MemorySession(this, plan.sessionID, draft);
        return Success(resumed);
      }
      var session := BeginFresh(plan);
      return Success(session);
    }

    method BeginFresh(plan: MergePlan) returns (session: MemorySession)
      requires Valid() && NamesIssued(State()) && plan.totalSize >= 0 && plan.sessionID == ""
      modifies this
      ensures Valid() && NamesIssued(State()) && fresh(buffers - old(buffers))
      ensures fresh(session) && session.owner == this && session.Open()
      ensures Begun(old(State()), plan) == Some((session.id, State()))
    {
      hide SessionName, Zeros;
      var id := TakeName();
      var draft := Stage(id, plan.fileID, plan.version, plan.totalSize);
      session := new MemorySession(this, id, draft);
    }

    // writer.next++ and the Sprintf after it
    method TakeName() returns (id: string)
      requires staged.Keys == drafts.Keys && NamesIssued(State())
      modifies `next
      ensures next == old(next) + 1 && id == SessionName(next)
      ensures id !in drafts && NamesIssued(State()) && Issued(next, id)
    {
      NextNameIsFresh(State());
      next := next + 1;
      id := SessionName(next);
    }

    // &memoryDraft{..., data: make([]byte, plan.TotalSize)}
    method NewDraft(fileID: string, version: string, totalSize: int64) returns (draft: MemoryDraft)
      requires totalSize >= 0
      ensures fresh(draft) && fresh(draft.data)
      ensures draft.Value() == Draft(fileID, version, Zeros(totalSize as nat))
    {
      var buffer := new byte[totalSize](_ => 0);
      draft := new MemoryDraft(fileID, version, buffer);
      assert buffer[..] == Zeros(totalSize as nat);
    }

    // Adds a zeroed draft under a name that is not in use.
    method Stage(id: string, fileID: string, version: string, totalSize: int64) returns (draft: MemoryDraft)
      requires Valid() && id !in drafts && totalSize >= 0
      modifies `drafts, `staged, `buffers
      ensures Valid() && fresh(buffers - old(buffers))
      ensures drafts == old(drafts)[id := draft]
      ensures staged == old(staged)[id := Draft(fileID, version, Zeros(totalSize as nat))]
    {
      draft := NewDraft(fileID, version, totalSize);
      Insert(id, draft);
    }

    // writer.drafts[id] = draft
    method Insert(id: string, draft: MemoryDraft)
      requires Valid() && id !in drafts && draft.data !in buffers
      modifies `drafts, `staged, `buffers
      ensures Valid() && drafts == old(drafts)[id := draft]
      ensures staged == old(staged)[id := draft.Value()] && buffers == old(buffers) + {draft.data}
    {
      hide Apart, MemoryDraft.Value;
      ApartWith(drafts, id, draft);
      drafts, staged, buffers := drafts[id := draft], staged[id := draft.Value()], buffers + {draft.data};
    }
  }

  class MemorySession {
    const owner: MemoryWriter
    const id: string
    const draft: MemoryDraft
    var closed: bool

    constructor (owner: MemoryWriter, id: string, draft: MemoryDraft)
      ensures this.owner == owner && this.id == id && this.draft == draft && !closed
    {
      this.owner, this.id, this.draft, closed := owner, id, draft, false;
    }

    // The writer still stages this session's draft.
    ghost predicate Open()
      reads this, owner
    {
      !closed && id in owner.drafts && owner.drafts[id] == draft
    }

    method AppendAt(expired: bool, offset: int64, piece: bytes) returns (ok: bool)
      requires owner.Valid() && (closed || Open())
      modifies owner`staged, draft.data
      ensures owner.Valid()
      ensures ok <==> !expired && !closed && AppendFits(old(owner.State()), id, offset as int, piece)
      ensures ok ==> owner.State() == Appended(old(owner.State()), id, offset as int, piece)
      ensures !ok ==> owner.State() == old(owner.State())
    {
      if expired || closed || offset < 0 || offset as int > draft.data.Length - |piece| {
        return false;
      }
      CopyInto(draft.data, offset as nat, piece);
      owner.staged := owner.staged[id := draft.Value()];
      return true;
    }

    method Commit(expired: bool, digest: bytes -> string) returns (r: Option<CommitReceipt>)
      requires owner.Valid() && (closed || Open())
      modifies this, owner
      ensures owner.Valid() && owner.buffers == old(owner.buffers)
      ensures r.Some? <==> !expired && !old(closed)
      ensures r.Some? ==>
        && closed && owner.State() == Committed(digest, old(owner.State()), id)
        && r.value == ReceiptFor(digest, old(draft.Value()))
      ensures r.None? ==> closed == old(closed) && owner.State() == old(owner.State())
      ensures r.None? ==> owner.drafts == old(owner.drafts)
    {
      if expired || closed {
        return None;
      }
      closed := true;
      var committed := draft.data[..];
      var receipt := CommitReceipt(draft.fileID, draft.version, |committed|, digest(committed));
      owner.outputs := owner.outputs[receipt.fileID := receipt];
      owner.data := owner.data[receipt.fileID := committed];
      Unstage();
      return Some(receipt);
    }

    // Merge always aborts with a background context, which never expires.
    method Abort(expired: bool) returns (ok: bool)
      requires owner.Valid() && (closed || Open())
      modifies this, owner
      ensures owner.Valid() && owner.buffers == old(owner.buffers)
      ensures ok == !expired && closed == (old(closed) || ok)
      ensures !ok || old(closed) ==> owner.State() == old(owner.State()) && owner.drafts == old(owner.drafts)
      ensures ok && !old(closed) ==> owner.State() == Aborted(old(owner.State()), id)
    {
      if expired {
        return false;
      }
      if closed {
        return true;
      }
      closed := true;
      Unstage();
      return true;
    }

    // delete(owner.drafts, id)
    method Unstage()
      requires owner.Valid() && id in owner.drafts
      modifies owner`drafts, owner`staged
      ensures owner.Valid() && owner.buffers == old(owner.buffers)
      ensures owner.drafts == old(owner.drafts) - {id} && owner.staged == old(owner.staged) - {id}
    {
      owner.drafts, owner.staged := owner.drafts - {id}, owner.staged - {id};
    }
  }

  // ---------- MemoryCheckpoints and MemoryIndex ----------

  class MemoryCheckpoints {
    var items: map<string, Checkpoint>

    constructor ()
      ensures items == map[]
    {
      items := map[];
    }

    // None when the context has expired; otherwise the stored checkpoint, if any.
    method Load(expired: bool, fileID: string) returns (r: Option<Option<Checkpoint>>)
      ensures r.None? <==> expired
      ensures r.Some? ==> r.value == if fileID in items then Some(items[fileID]) else None
    {
      if expired {
        return None;
      }
      return Some(if fileID in items then Some(items[fileID]) else None);
    }

    method Save(expired: bool, checkpoint: Checkpoint) returns (ok: bool)
      modifies this
      ensures ok == !expired
      ensures items == if ok then old(items)[checkpoint.fileID := checkpoint] else old(items)
    {
      if expired {
        return false;
      }
      items := items[checkpoint.fileID := checkpoint];
      return true;
    }

    method Clear(expired: bool, fileID: string) returns (ok: bool)
      modifies this
      ensures ok == !expired
      ensures items == if ok then old(items) - {fileID} else old(items)
    {
      if expired {
        return false;
      }
      items := items - {fileID};
      return true;
    }
  }

  class MemoryIndex {
    var records: map<string, CommitReceipt>

    constructor ()
      ensures records == map[]
    {
      records := map[];
    }

    method Put(expired: bool, receipt: CommitReceipt) returns (ok: bool)
      modifies this
      ensures ok <==>
        && !expired && receipt.fileID != "" && receipt.version != "" && receipt.size >= 0
        && IsDigestText(receipt.digest)
      ensures records == if ok then old(records)[receipt.fileID := receipt] else old(records)
    {
      if expired || !ReceiptOk(receipt) {
        return false;
      }
      records := records[receipt.fileID := receipt];
      return true;
    }
  }
}
