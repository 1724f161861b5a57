// A merge whose caller has cancelled: what it may still write, and how it ends.
module MergeCancel {
  import opened Manifests
  import opened Writers
  import opened MergeMachine
  import opened MergeInvariant
  import opened MergeOutput

  // The disk but for the draft of this session and the checkpoint of this file,
  // which may be gone.
  ghost predicate NothingWritten(cfg: Config, session: string, before: Disk, after: Disk) {
    && after.index == before.index && after.writer.next == before.writer.next
    && after.writer.outputs == before.writer.outputs && after.writer.data == before.writer.data
    && (after.writer.drafts == before.writer.drafts || after.writer.drafts == before.writer.drafts - {session})
    && (after.checkpoints == before.checkpoints || after.checkpoints == before.checkpoints - {cfg.FileID()})
  }

  // Between these two states of one run.
  ghost predicate Cancelling(cfg: Config, s: State, t: State) {
    && t.callerDone && t.session == s.session && t.phase != Finished(End.Success)
    && (PastCommit(t.phase) <==> PastCommit(s.phase))
    && (if PastCommit(s.phase) then t.disk == s.disk
        else NothingWritten(cfg, s.session, s.disk, t.disk) && t.next == s.next)
  }

  lemma CancelledStep(cfg: Config, s: State, a: Action)
    requires s.callerDone && s.phase != Finished(End.Success) && Enabled(cfg, s, a)
    ensures Cancelling(cfg, s, Apply(cfg, s, a))
  {
    if WorkerStep(a) {
      WorkerCancelled(cfg, s, a);
    } else {
      CollectorCancelled(cfg, s, a);
    }
  }

  lemma WorkerCancelled(cfg: Config, s: State, a: Action)
    requires s.callerDone && s.phase != Finished(End.Success) && Enabled(cfg, s, a) && WorkerStep(a)
    ensures Cancelling(cfg, s, Apply(cfg, s, a))
  {
    hide ApplyReceive, ApplyAppend, ApplySave, DropPending, ApplyDrain, ApplyCommit, ApplyPutIndex;
    var t := Apply(cfg, s, a);
    assert t.disk == s.disk && t.phase == s.phase && t.callerDone && t.session == s.session && t.next == s.next;
  }

  lemma CollectorCancelled(cfg: Config, s: State, a: Action)
    requires s.callerDone && s.phase != Finished(End.Success) && Enabled(cfg, s, a) && !WorkerStep(a)
    ensures Cancelling(cfg, s, Apply(cfg, s, a))
  {
    hide ApplyCheck, ApplyLoadOk, Writers.Appended, Writers.Committed, ReceiptOk, AppendFits;
  }

  // Once the caller has cancelled a merge it writes nothing more and does not
  // succeed: before the commit it can only take back its draft and its
  // checkpoint, after it the result stays published and the checkpoint stays too.
  lemma {:induction false} CancelledMergeWritesNothing(cfg: Config, run: seq<State>, i: nat, j: nat)
    requires IsRun(cfg, run) && i <= j < |run|
    requires run[i].callerDone && run[i].phase != Finished(End.Success)
    ensures Cancelling(cfg, run[i], run[j])
  {
    hide Apply, Enabled;
    if i < j {
      CancelledMergeWritesNothing(cfg, run, i, j - 1);
      assert StepAt(cfg, run, j - 1);
      var a :| Enabled(cfg, run[j - 1], a) && run[j] == Apply(cfg, run[j - 1], a);
      CancelledStep(cfg, run[j - 1], a);
    }
  }
}
