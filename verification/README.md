# Verified model of the segment merger

A Dafny model of a service that merges file segments concurrently and of the
operation lifecycle around it, with proofs about every interleaving and every
history. `dafny verify dfyconfig.toml` checks the whole project.

**The merge.** `Manifest.dfy` compiles and plans a manifest, `Budget.dfy` is the
byte budget, `Loader.dfy` loads and verifies one segment, `Writer.dfy` is what a
merge leaves behind (drafts, outputs, checkpoints, index), and `Merger.dfy` is
`Merger.Merge` as the code runs it: local variables, maps and sessions updated
in place, with the results of the workers arriving in any order and the context
expiring at any question. `MergeMachine.dfy` is the same merge as a transition
system in which the dispatcher, the workers, the budget, the result channel and
the collecting goroutine take atomic steps in any order. The other `Merge*.dfy`
files prove its invariants, its output, its termination, what a cancelled one
may still do and exactly when it can hang. `Failure.dfy` classes Merge's errors as the service does. `MergeResults.dfy` shows that what the machine's workers send is what
`Merger.Merge` is promised to receive. `AdmittedMerges.dfy` joins the machine to
`Policy.dfy`, and `TinyMerge.dfy` is a three-segment file for examples.

**The lifecycle.** `Lease.dfy`, `Journal.dfy` and `Catalog.dfy` are the lease
manager, the event log and the record store. `Operations.dfy` is the service as
a transition system: each `Submit`, `Run` and `Cancel` in flight is a thread
whose reads, compare-and-swaps and journal appends are separate steps.
`Lifecycle.dfy`, `Endings.dfy` and `OperationHistory.dfy` prove what holds over
all its runs, and `OperationFailures.dfy` builds runs in which a promise fails.
`SoloCalls.dfy` says what each call does to the stored state when no other call
comes in between, and `Orphans.dfy` what becomes of a run that is not reported.

SHA-256, gzip and JSON are function-valued parameters. About the digest only
that it is hexadecimal text of 64 digits is assumed (`Loading.DigestsAreHex`),
about gzip nothing, and about JSON that an encoded line has no newline, does not
end in a carriage return and reads back as the same envelope with its event in
normal form (`Journals.CodecOk`).

## Findings

- A merge can hang. A loaded segment keeps its reservation while it waits in
  `pending` for its turn, so later segments can fill the budget and shut out the
  next one to write. `MergeJam.StuckIffBlockable` says exactly for which weights,
  worker counts and limits; `AdmittedMerges.AHangingMergeExists` is a merge of three
  segments that `Admission.Evaluate` lets through.
- `Run` and `Cancel` read the operation and then, separately, its revision. An
  update in between is not noticed. `OperationFailures.CancelReplacesCompleted` is a
  run, for every workable request, in which `Cancel` reads a running operation,
  the run completes it and stores its artifact, and `Cancel` replaces the
  completed record: the artifact names a cancelled operation that has reported
  two outcomes. `OperationFailures.CancelledCanBeRevived` sets a cancelled operation
  running again. A swap does this harm exactly when the record its second read
  found has ended (`OperationHistory.SwapKeepsEndsIff`); while that has not happened,
  ended operations, artifacts, outcome events and the active count are as they
  should be, stale reads or not.
- The law that locks state, attempt and revision of a record together is a
  different matter. A `Start` keeps it exactly when nothing was stored between its
  two reads (`OperationHistory.StartKeepsLifecycleIff`); a `Cancel` exactly when
  nothing was, or one update of an operation it read running with attempts left
  (`OperationHistory.CancelKeepsLifecycleIff`). `OperationFailures.StaleCancelBreaksLaw`
  is a run in which a `Cancel` that read an accepted operation breaks it. Over whole
  runs the law holds exactly as long as every swap met its condition
  (`OperationHistory.LawfulIff`).
- The comment on `Manager.Acquire` and the name of the test in
  `operation/target_test.go` say that a worker whose lease was replaced cannot
  publish. `Run` never looks at its lease again:
  `OperationFailures.LostLeasePublishes` is a run in which the lease expires, another
  owner acquires it under a higher fence, and the first worker then stores its
  artifact. Publication depends exactly on the record being the one its `Start`
  stored (`OperationHistory.FinishIffUnchanged`).
- If a merge is dropped after its draft is gone and before its checkpoint is
  removed, or if clearing or indexing fails after a commit, the checkpoint names
  a session that does not exist and every later merge of the file version is
  refused: `MergeSuccess.MergesCanBeStranded` does it to every merge that can succeed,
  `MergeResults.LateFailuresStrand` reads it off Merge's own exits, and
  `MergeHistory.ResumableIffDraftSurvives` is the exact condition.
- `FileStore.Append` does not look at the event and neither store looks at the
  length of the line, so a journal reads back exactly when every event in it is
  proper and every line short: `Journals.RoundTrip`. One improper event locks the
  file: `Journals.ImproperEventLocksTheFile`.
- A `Run` whose started event the journal does not take returns with its operation
  stored as running. Nobody runs it, no later `Run` takes it up, and it counts
  against the limit of active operations: `Orphans.AnOrphanIsReached` is such a run
  of the service, and `Orphans.OrphanStays` shows that in every history that keeps
  the law only a `Cancel` ever changes the record again.
- `BudgetLease.MarkResident` accepts a lease it has already marked and then counts
  its bytes a second time; the books balance exactly after a first marking. `Load`
  marks once.
- The retry delay is the capped doubling schedule for every cap exactly while the
  doubling does not overflow 64 bits (`Policies.DelayFollowsSchedule`). For one given
  cap it also is when the wrapped product still reaches the cap, and never else
  (`Policies.DelayForOneCap`).

## Model

| member | source | states |
|---|---|---|
| Manifests.CompileManifest | segmentmerge/manifest.go:11-51 | accepts exactly the manifests whose file id and version are not all space and whose segments are well formed, have distinct ids, lie within the file and are pairwise disjoint; the result has file id and version cut to what lies between leading and trailing space, and the segments in their one sorted order; a missing header is reported exactly when there is one, and otherwise the first thing wrong with a sorted arrangement; every rejection is justified by the caller's own segments; no 64-bit overflow |
| Manifests.ScanSorted | segmentmerge/manifest.go:25-49 | one pass that compares neighbours decides the all-pairs condition on sorted segments and reports the first fault in them |
| Manifests.OneFirstFault | segmentmerge/manifest.go:26-47 | sorted segments have at most one first fault, and having one they are not acceptable |
| Prelude.TrimSpaceIff | segmentmerge/manifest.go:13-14 | trimming yields the one text without space at either end that the given text is between two runs of space |
| Prelude.StringLessIff | segmentmerge/manifest.go:23 | one id sorts before another exactly when they agree up to a place where the second goes on with a later character |
| Prelude.IsDigestTextIff | segmentmerge/manifest.go:43-45 | a digest is accepted exactly when it decodes as hexadecimal to 32 bytes |
| Prelude.HexRoundTrip | segmentmerge/checksum.go:9-12 | decoding undoes the encoding that digests are written in |
| Manifests.SortInPlace | segmentmerge/manifest.go:19-24 | leaves a sorted permutation of the detached copy |
| Manifests.SortedUnique | segmentmerge/manifest.go:19-24 | with distinct ids there is one sorted arrangement, so the unstable sort has one outcome |
| Manifests.CompileIsCanonical | segmentmerge/manifest.go:11-51 | two orderings of the same segments are both rejected or compile to the same manifest |
| Manifests.CompileIsIdempotent | segmentmerge/manifest.go:11-51 | compiling a compiled manifest, as BuildPlan does for Merge, changes nothing |
| Manifests.CompiledOrdered | segmentmerge/manifest.go:35-48 | each compiled segment ends before every later one begins |
| Manifests.BuildPlan | segmentmerge/planner.go:5-24 | succeeds exactly for acceptable manifests with a matching checkpoint in range, and then the entries are the compiled suffix from the checkpoint with ordinal equal to position |
| Budgets.ByteBudget.TryAcquire | segmentmerge/budget.go:27-45 | one locked pass of Acquire: refuses, grants a new lease or tells the caller to wait on the generation current at the failed check; both counters stay sums over outstanding leases |
| Budgets.BudgetLease.MarkResident | segmentmerge/budget.go:63-75 | accepts exactly sizes within the reservation; a first marking keeps resident and peak within the limit and the books balanced, and marking again unbalances them |
| Budgets.BudgetLease.Release | segmentmerge/budget.go:77-88 | the first call gives back weight and resident bytes and starts a new generation, any further call changes nothing |
| Budgets.ByteBudget.Bounds | segmentmerge/budget.go:11-18 | 0 <= resident <= reserved whenever the books balance |
| Loading.Loader.Load | segmentmerge/worker.go:21-76 | loads exactly when the reservation is granted, reading succeeds, the source's bytes decode to the declared ones and these fit the reservation, and then hands over a lease with those bytes marked; each error is given exactly when its cause holds; on every failure, the end of the context during a wait included, has given back what it took; a caller told to wait has taken nothing |
| Loading.Content | segmentmerge/worker.go:36-72 | what passes is what the source's bytes decode to: themselves for a raw segment, what gzip makes of them for a compressed one, with stored size, logical size and digest as declared |
| Loading.ContentIff | segmentmerge/worker.go:45-64 | a segment's content is `data` exactly when the stored bytes have the stored size and decode to `data` with the declared size and digest; spelt out for raw and for gzip |
| Loading.FailureIff | segmentmerge/worker.go:32-64 | each error is given exactly when its check is the first to fail |
| Writers.MemoryWriter.Begin | segmentmerge/writer.go:37-55 | resumes exactly a staged draft of this file, version and size, or stages a zeroed one under a name no draft has; tells an expired context from a session it cannot resume |
| Writers.NextNameIsFresh | segmentmerge/writer.go:49-53 | the next session name differs from that of every staged draft |
| Writers.CopyInto | segmentmerge/writer.go:81-82 | overwrites exactly the slice at the offset |
| Writers.MemorySession.AppendAt | segmentmerge/writer.go:72-83 | succeeds exactly when context, session and bounds allow it and then overwrites exactly that slice of this draft |
| Writers.MemorySession.Commit | segmentmerge/writer.go:84-99 | publishes the draft's bytes and their receipt together and unstages it; otherwise changes nothing |
| Writers.MemorySession.Abort | segmentmerge/writer.go:100-112 | unless the context expired, unstages the draft and nothing else |
| Writers.MemoryCheckpoints.Save | segmentmerge/checkpoint.go:33-41 | replaces the one checkpoint of the file |
| Writers.MemoryCheckpoints.Clear | segmentmerge/checkpoint.go:43-51 | removes the one checkpoint of the file |
| Writers.MemoryCheckpoints.Load | segmentmerge/checkpoint.go:23-31 | returns the stored checkpoint if there is one |
| Writers.MemoryIndex.Put | segmentmerge/index.go:18-29 | records exactly valid receipts |
| MergeOutput.MergedIsExpected | segmentmerge/service.go:75-94 | a draft is complete exactly when it is the specified file: verified bytes at their offsets, zeros in every gap |
| MergeOutput.MergedExtends | segmentmerge/service.go:75-85 | appending the next ordinal turns a draft right up to it into one right past it |
| MergeOutput.MergedPrefix | segmentmerge/service.go:86 | below the last written segment's end a draft already has its final bytes |
| MergeOutput.DiskKept | segmentmerge/service.go:57-116 | every step keeps draft, checkpoint, output and index in agreement |
| MergeInvariant.RunKept | segmentmerge/service.go:57-164 | every step of every goroutine keeps places, leases, budget and wake-ups in order |
| MergeInvariant.AcceptedManifestIsOk | segmentmerge/manifest.go:11-51 | every accepted manifest satisfies what the merge proofs assume |
| MergeHistory.MergePublishesExpected | segmentmerge/service.go:34-117 | whatever the interleaving, worker count, limit and earlier interruptions, a merge that succeeds has published exactly the specified bytes, with output, receipt and index entry agreeing and no checkpoint left |
| MergeHistory.ResumeRefinesRestart | segmentmerge/service.go:39-51 | any two histories of the same file version, interrupted or not, publish the same bytes, receipt and index entry |
| MergeHistory.CheckpointCoversPrefix | segmentmerge/service.go:86 | whenever a checkpoint's draft survives, it equals the final file below OutputSize |
| MergeHistory.ResumableIffDraftSurvives | segmentmerge/service.go:103-112 | a dropped run can be taken up again exactly when it left no checkpoint or its draft is still staged |
| MergeHistory.StrandedNeverStarts | segmentmerge/writer.go:43-48 | a checkpoint whose draft is gone refuses every later merge |
| MergeHistory.PublishedForGood | segmentmerge/service.go:34-117 | what was published stays published through all later runs of the version |
| MergeHistory.BudgetBalances | segmentmerge/budget.go:27-88 | in every reachable state reserved and resident are the sums over unreleased leases, each of which a worker, the channel or pending holds; 0 <= resident <= reserved <= limit and resident <= peak <= limit |
| MergeHistory.BudgetReturnsToZero | segmentmerge/service.go:60-102 | after any exit has drained, reserved and resident are zero |
| MergeHistory.NoLostWakeUp | segmentmerge/budget.go:31-44 | a waiting worker that would fit has a closed channel to wake it |
| MergeHistory.EveryOrdinalInOnePlace | segmentmerge/service.go:58-164 | each planned ordinal is in exactly one of unsent, worker, channel, pending, written or dropped |
| MergeHistory.IncompleteIsUnreachable | segmentmerge/service.go:97-102 | the "incomplete worker results" exit is never taken |
| MergeHistory.SendNeverBlocks | segmentmerge/service.go:134 | the result channel always has room |
| MergeProgress.StepLowersRank | segmentmerge/service.go:34-164 | every step of every goroutine lowers a rank, repeated failed checks included |
| MergeProgress.RunsAreFinite | segmentmerge/service.go:34-164 | no run is longer than the rank of its first state |
| MergeProgress.CancelledRunsAlwaysMove | segmentmerge/service.go:60-102 | after cancellation some step is always enabled until Merge has returned |
| MergeCancel.CancelledMergeWritesNothing | segmentmerge/service.go:75-115 | once the caller has cancelled, a merge never succeeds and writes nothing: before the commit it can only take back its draft and checkpoint, after it the disk stays as it is |
| MergeDeadlock.StuckIsJam | segmentmerge/service.go:69-73 | a stuck state has all workers asleep or gone and segments parked in pending behind one that does not fit |
| MergeJam.StuckIffBlockable | segmentmerge/service.go:69-85 | when every segment loads and fits the limit alone, some interleaving gets stuck exactly when some later segments fit the budget together, leave no room for an earlier one, and there is a worker to load them besides those waiting on it and on the segments skipped |
| AdmittedMerges.UnblockableRunsFinish | segmentmerge/service.go:34-117 | any reachable state of a merge that is not blockable can be run to its end |
| MergeSuccess.UndisturbedRunsSucceed | segmentmerge/service.go:57-116 | if every segment loads and fits and the merge cannot be blocked, a run without failing loads or cancellation can always go on until it ends in success |
| MergeSuccess.MergesCanBeStranded | segmentmerge/service.go:103-112 | every such merge can be dropped between Commit and the index so that its file is published and no later merge of the version starts |
| MergeSuccess.AStrandedFileExists | segmentmerge/service.go:103-112 | a file is stranded so, for every digest function |
| MergeResults.EveryResultIsSent | segmentmerge/service.go:132-163 | once the workers are gone exactly one result was sent for every planned entry |
| MergeResults.MachineFeedsMerge | segmentmerge/service.go:132-163 | what the machine's workers send satisfies what Merge assumes of its results, and is complete exactly when no load failed |
| MergeResults.LateFailuresStrand | segmentmerge/service.go:107-115 | Merge's exits after a failed index or clearing leave a checkpoint without a draft, and no later run starts |
| AdmittedMerges.OneWorkerNeverStuck | segmentmerge/service.go:22-24 | with one worker a merge never gets stuck |
| AdmittedMerges.EnoughMemoryNeverStuck | segmentmerge/service.go:57-96 | nor does it when the planned bytes fit the limit together |
| AdmittedMerges.AdmittedNeverExceeds | policy/policy.go:95-113 | a merge built from an admission decision never fails in Acquire or MarkResident for its budget |
| AdmittedMerges.AdmittedMergeCanHang | policy/policy.go:110-112 | three equal segments with memory for two are admitted with two workers and can get stuck |
| AdmittedMerges.AHangingMergeExists | policy/policy.go:110-112 | such a merge exists for every digest function, down to its bytes |
| Mergers.Merger.Merge | segmentmerge/service.go:34-117 | for any order of results and any expiry of the context, which is asked at most 2n + 5 times for n results: succeeds exactly when the manifest is acceptable, the session opens, every ordinal arrives loaded and the context holds, and fails with an error exactly when `Because` says so of results and context alone: the first undelivered result's own error if no question before it is refused, the segment whose append or the save whose question is refused first, missing results, or commit, index or clearing by the place of the refusal; on success the specified file, receipt and index entry are published and the checkpoint is gone; on every other exit after loading began, draft, checkpoint, output and index are as `Ends` says for that exit; every lease is released; earlier errors change nothing and each has its exact cause |
| Mergers.OneReason | segmentmerge/service.go:58-115 | a merge has at most one reason to fail |
| Mergers.ReasonMeansTrouble | segmentmerge/service.go:58-115 | with complete results a merge has a reason to fail only if one of its questions is refused |
| Failures.ClassIff | operation/runner.go:134-142 | a merge that began to load is classed as permanent exactly when it hears of damaged bytes, and as cancelled exactly when it hears of a load cut short or its own context refuses it |
| Failures.EarlyClassIff | operation/runner.go:134-142 | a merge that never came to load is classed as permanent exactly for an unacceptable manifest, and as cancelled exactly when its context refused a question |
| Mergers.Merger.Prepare | segmentmerge/service.go:35-54 | compile, load the checkpoint, plan and begin, exactly as the machine's start; each refusal has its exact cause |
| Mergers.Merger.Collect | segmentmerge/service.go:57-116 | the collecting loop to its return, over every order of results |
| Mergers.Merger.Turn | segmentmerge/service.go:59-96 | one result either keeps the loop's invariant or gives everything back, with the worker's own error or the error of the first step refused |
| Mergers.Merger.Flush | segmentmerge/service.go:70-95 | writes every segment now in turn, releases each lease once and saves the checkpoint after the last one written; a failure names the ordinal and the step whose question was refused first |
| Mergers.Merger.ReleasePending | segmentmerge/service.go:125-130 | gives back the lease of every pending segment, also one already released through another copy |
| Mergers.Merger.Drain | segmentmerge/service.go:119-123 | gives back the lease of every result still to come |
| Mergers.Merger.Publish | segmentmerge/service.go:103-116 | what commit, index and clearing leave behind at each point of failure, and which of them is reported |
| Mergers.EndsTrusted | segmentmerge/service.go:34-117 | whatever way a merge ended, what it leaves satisfies what the next merge assumes of its stores |
| Mergers.AllWritten | segmentmerge/service.go:97-102 | when the channel closes all ordinals are written exactly when none was missing, and pending is empty |
| Policies.Evaluate | policy/policy.go:77-114 | computes the decision in a loop over the segments |
| Policies.AdmissionMeansRoom | policy/policy.go:77-114 | who is admitted, and that the concurrency is between 1 and 8 and the largest that keeps concurrency times the largest segment within memory |
| Policies.CeilSqrt | policy/policy.go:112 | the smallest number whose square is not below the segment count |
| Policies.NewAdmission | policy/policy.go:51-75 | all limits positive, each given positive limit kept and each other one its default |
| Policies.RetryIff | policy/policy.go:131-146 | a failure is retried exactly when it is transient and attempts are left |
| Policies.DelayFollowsSchedule | policy/policy.go:138-145 | the delay is min(cap, base * 2^(attempt-1)) for every cap exactly when that product fits 64 bits |
| Policies.DelayForOneCap | policy/policy.go:138-145 | for one cap the delay is right exactly when the product fits 64 bits or its wrapped value reaches the cap |
| Policies.DelayWraps | policy/policy.go:141-144 | for any attempt the delay is the smaller of the cap and the doubled base as a 64-bit integer holds it |
| Policies.RetrySchedule | policy/policy.go:131-146 | within the stated bounds on base and attempts every transient delay is positive, exact and non-decreasing |
| Leases.Manager.AcquireLease | lease/manager.go:63-80 | grants exactly when no unexpired lease is stored, under the next fence and until the reading plus the duration; otherwise changes nothing |
| Leases.Manager.RenewLease | lease/manager.go:82-106 | prolongs exactly the holder's own unexpired lease, to the reading plus the duration, removes it when expired, else changes nothing |
| Leases.Manager.ReleaseLease | lease/manager.go:108-123 | removes exactly the holder's own lease |
| Leases.Manager.SweepExpired | lease/manager.go:136-148 | removes and returns exactly the leases expired at the reading, each once |
| Leases.AlwaysSound | lease/manager.go:47-52 | in every history a resource has at most one lease, under its own name, and no two leases share a fence |
| Leases.GrantedFencesIncrease | lease/manager.go:76-79 | fences granted are strictly increasing over the whole history, whatever the clock readings |
| Leases.SupersededHolderIsPowerless | lease/manager.go:82-123 | once a later Acquire of the resource was granted, no Renew or Release under the earlier fence, by any owner, ever has an effect |
| Leases.LeaseLostIff | lease/manager.go:63-148 | a stored lease leaves the table exactly when its holder gives it back or an acting call reads a clock past its expiry |
| Leases.HolderIsUndisturbed | lease/manager.go:73-75 | while neither happens the holder keeps its lease, over any history |
| Leases.RegrantHasReason | lease/manager.go:73-79 | between two grants of a resource the earlier lease was given back or found expired |
| Journals.MemoryStore.Append | journal/store.go:31-48 | appends exactly proper, encodable events under the next number; a failed one leaves no gap |
| Journals.MemoryStore.All | journal/store.go:60-65 | returns every event in order, numbered 1..n, or fails for the stated reasons only |
| Journals.MemoryStore.ReplayOf | journal/store.go:50-58 | returns the order-preserving selection of one operation's events |
| Journals.DecodeStream | journal/store.go:87-118 | on any bytes: succeeds exactly when no line is too long and each k-th line is a sound record with number k while the context holds, and returns the records selected; otherwise reports the first line at fault and what is wrong with it |
| Journals.Joined | journal/store.go:67-74 | joins lines with newlines |
| Journals.ScanYields | journal/store.go:88-94 | scanning yields the lines of a stream in order, each without one trailing carriage return and a last one without newline included, up to the first that is too long |
| Journals.StreamSplits | journal/store.go:88-94 | every stream is such lines |
| Journals.ScanUndoesJoin | journal/store.go:67-118 | scanning joined clean lines gives them back, up to the first one over the scanner's limit |
| Journals.RoundTrip | journal/store.go:31-118 | reading back what was written succeeds exactly when every event is proper, every line short and the context holds, and then yields all events in order numbered 1..n |
| Journals.DecodedIff | journal/store.go:92-128 | in the codec's terms: a stream is accepted exactly when its k-th line unmarshals to an envelope with number k, an encodable event with operation and known kind, and the checksum of that event as encoded; otherwise the first line to break this decides the error |
| Journals.ReplaySelectsFromAll | journal/store.go:109-111 | on any bytes, replaying one operation is selecting from a replay of all |
| Journals.OnlyPicks | journal/store.go:109-111 | the selection is the events of that operation, each once and in order |
| Journals.OnlyPrefixesAreAccepted | journal/store.go:102-107 | a journal's lines with any dropped, repeated or moved are accepted exactly when they are a prefix of the original |
| Journals.FileStore.Open | journal/file.go:20-41 | opens exactly the files all of whose lines are sound records in sequence, on any bytes, numbering on from their last one, and otherwise reports the first fault; for a file written by such stores that is when all its events are proper and its lines short |
| Journals.FileStore.Append | journal/file.go:48-77 | adds one line under the next number, without looking at the event |
| Journals.FileStore.ReadFile | journal/file.go:79-102 | on any bytes what a sound sequence of lines holds or the first fault, and so everything ever appended, over any number of closings and openings |
| Journals.ImproperEventLocksTheFile | journal/file.go:48-76 | appending an event without an operation succeeds and every later open of the file fails |
| Journals.SuchAnEventExists | journal/file.go:48-76 | there is such an event and a codec that can write it |
| Catalogs.Catalog.CreateRecord | catalog/catalog.go:59-79 | one operation per idempotency key, first one wins |
| Catalogs.Catalog.UpdateRecord | catalog/catalog.go:91-107 | compare-and-swap on the revision, identity kept; a stale revision is reported exactly when it is the reason |
| Catalogs.Catalog.PutArtifact | catalog/catalog.go:109-123 | write-once per file; a conflict is reported exactly when the stored receipt has another version or digest |
| Catalogs.Catalog.Counts | catalog/catalog.go:159-167 | the totals and each state's entry are the numbers of operations and artifacts |
| Catalogs.AlwaysPaired | catalog/catalog.go:65-78 | in every history keys and operations are in bijection |
| Catalogs.HistoryGrows | catalog/catalog.go:91-123 | identities, keys and artifacts never change and a revision never stands for two records |
| Catalogs.KeyReturnsFirstOperation | catalog/catalog.go:65-71 | submitting under a key again returns its first operation for ever, or an error for another file |
| Catalogs.OneWinnerPerRevision | catalog/catalog.go:98-105 | of two updates expecting the same revision at most one succeeds |
| Catalogs.RevisionCountsUpdates | catalog/catalog.go:75-105 | a revision is one more than the number of successful updates |
| Lifecycle.GotRecord | operation/service.go:191-197 | fromRecord undoes toRecord but for the revision |
| Lifecycle.SwapOk | operation/service.go:137 | an update of a read operation fails only for a stale revision and keeps the catalog in order |
| Lifecycle.AlwaysKept | operation/service.go:67-151 | every step of every call keeps the invariant that needs no assumption |
| Lifecycle.ProgressKeepsLifecycle | operation/model.go:88-104 | each intended transition keeps state, attempt and revision locked together |
| Endings.InvKept | operation/runner.go:15-132 | every step keeps the whole invariant: its unconditional part always, each other part while its history flag holds |
| OperationHistory.LifecycleHolds | operation/runner.go:31-46 | while every Start and Cancel swap met the condition of its kind: Accepted is revision 1 attempt 0, Running 2a, Retrying and outcomes from Running 2a+1, Cancelled without running 2a+2, attempts and revisions bounded |
| OperationHistory.LawfulIff | operation/model.go:88-104 | the flag LifecycleHolds assumes holds exactly as long as every record in every state so far obeys the law |
| OperationHistory.TerminalIsForGood | operation/model.go:80-82 | while no Start or Cancel has replaced an ended record, an ended operation's record never changes |
| OperationHistory.SwapKeepsEndsIff | operation/runner.go:39-43 | the swap of a Start or Cancel keeps all ended records exactly when the record its second read found has not ended |
| OperationHistory.EndsKeptIff | operation/service.go:136-140 | the history flag holds exactly when no step so far changed an ended record |
| OperationHistory.TightIsEnough | operation/service.go:124-137 | in a history in which every Start and Cancel replaced what it had read, the law holds and no ended record was replaced |
| OperationHistory.FinishIffUnchanged | operation/runner.go:82-85 | a finish takes effect exactly when the record is still the one its Start stored; otherwise it changes nothing |
| OperationHistory.FinishStores | operation/runner.go:71-122 | in reached states a finish at its own revision stores the record as completed with the receipt, as retrying exactly when the failure is transient and attempts are left, and as failed otherwise, changing nothing else of it; at any other revision it changes nothing |
| OperationHistory.LookGoesOnIff | operation/runner.go:16-26 | a run goes on past its first look exactly for a known operation that is accepted or retrying, a cancel for one that has not ended |
| OperationHistory.ValidRequestIff | operation/model.go:35-53 | a request under a key is valid exactly when its manifest is acceptable and no load can miss a segment or find it of another stored size |
| SoloCalls.SoloSubmit | operation/service.go:67-104 | with nothing in between, Submit stores a new accepted operation, its key, its request and its event, or the operation as failed when the event cannot be written, or changes nothing |
| SoloCalls.SoloRun | operation/runner.go:15-95 | with nothing in between, Run takes the free lease under the next fence, counts the attempt, ends as its second admission and its merge do, publishes and reports that, and gives the lease back; or changes nothing; only when its started event cannot be written it leaves the operation running |
| SoloCalls.SoloCancel | operation/service.go:123-151 | with nothing in between, Cancel stores an operation that has not ended as cancelled and reports it, or changes nothing |
| SoloCalls.SoloIsReached | operation/service.go:67-151 | the steps of such a call are steps of the service |
| Orphans.OrphanStays | operation/runner.go:47-51 | while the law is kept, an operation stored as running with no call about to end it stays so and counts as active unless it is cancelled |
| Orphans.AnOrphanIsReached | operation/runner.go:47-51 | for every workable request a Submit and a Run that cannot write its started event reach such a state |
| OperationHistory.SupersededFinishDoesNothing | operation/runner.go:119-122 | any update between Start and finish makes the finish leave catalog, artifacts and journal alone |
| OperationHistory.LostLeaseStillPublishes | operation/runner.go:75-89 | the lease manager's state does not influence finishing or publishing |
| OperationHistory.OnlyStaleRevisionsAreRefused | catalog/catalog.go:94-103 | from the service the "immutable identity" and "not found" errors of Update are unreachable |
| OperationHistory.TransitionTable | operation/model.go:80-104 | the transition table by its columns: what each state can be reached from, CanStart and Terminal included |
| OperationHistory.TransitionsNeverRefused | operation/model.go:88-104 | in reached states no call attempts a transition that the table refuses |
| OperationHistory.NothingIsRewritten | catalog/catalog.go:91-123 | over whole runs revisions only grow and artifacts, keys and requests never change |
| OperationHistory.IndexesAgree | operation/service.go:76-90 | keys and operations are in bijection and every record has the file and key of its request |
| OperationHistory.ArtifactsTellTheTruth | operation/runner.go:86-89 | under the same condition every artifact names a completed operation with the same result, and its size and digest are those of the specified merge of that operation's request |
| OperationHistory.SuccessfulMergesYield | operation/runner.go:67-70 | what the operation machine lets a merge return is what the merge machine publishes |
| OperationHistory.AtMostOneOutcome | operation/runner.go:90-94 | under the same condition an operation has at most one completed, failed or cancelled event, however long appends are delayed, and none before it has ended |
| OperationHistory.ActiveWithinLimit | operation/service.go:71-90 | under the same condition active operations stay within the limit when Submits do not overlap, and exceed it by at most one for each further overlapping one |
| OperationHistory.StartKeepsLifecycleIff | operation/runner.go:39-43 | in such a history a Start that swaps keeps the law exactly when nothing was stored between its two reads |
| OperationHistory.CancelKeepsLifecycleIff | operation/service.go:124-137 | in such a history a Cancel that swaps keeps the law exactly when nothing was stored between its two reads, or one update of an operation it read running with attempts left |
| OperationFailures.CancelledCanBeRevived | operation/service.go:123-140 | from any reached lawful state, an accepted operation whose lease is free can be cancelled between a Start's two reads and is then set running again, in reached states throughout |
| OperationFailures.ACancelledOperationRuns | operation/runner.go:16-43 | for every workable request it happens to its operation with nothing else going on |
| OperationFailures.StaleCancelBreaksLaw | operation/service.go:124-137 | a run from the first state that ends with a cancelled record of attempt 0 at revision 3, with no ended record replaced |
| OperationFailures.CancelReplacesCompleted | operation/service.go:123-149 | a run from the first state, for every workable request, that ends with an artifact naming a cancelled operation with two outcome events |
| OperationFailures.LostLeasePublishes | operation/runner.go:75-89 | a run from the first state in which the lease is regranted under a higher fence and the old worker then stores its artifact |
| OperationFailures.AWorkableRequestExists | operation/model.go:35-53 | such a request exists for every digest function |
| Operations.LoadCountsActive | operation/service.go:175-179 | the load is the number of operations that have not ended |

## Left out

- HTTP, server and demo programs: plumbing over the service.
- SHA-256, hex, gzip, JSON and xxhash internals: parameters, as described above; the partition and generated operation ids are any values.
- Blocking in `Acquire`: the object model has one locked pass (`TryAcquire`); the retry loop is in the transition system.
- The worker pool as objects: `Merger.Merge` takes the results in an arbitrary order of arrival; the goroutines and channels are in the transition system. Lease budgets of workers still loading are therefore seen there only.
- Mutexes and scheduling: each critical section is one atomic step, and a closed-channel wake-up is a generation number.
- Floating point in `Ceil(Sqrt(n))`: the integer square root rounded up, assumed to agree with it.
- Wrap-around of the 64-bit fence, revision and sequence counters; clock readings plus durations are unbounded integers.
- File I/O, fsync and torn writes: `FileStore` works on a file as a value that outlives it and has one open store at a time; `Replay.Truncated` is never set by the code.
- Two simultaneous merges of one file over one writer and checkpoint store, and a changed segment list under the same version: `Checkpoint.Matches` compares only file and version, so neither is safe to assume.
- Cancelling a running merge through the `cancels` table: a merge in the operation machine may end with any error at any time, which covers it.
- The loader's `beforeAcquire` and `afterDecode` hooks, which production code leaves unset.
- Timestamps, progress counters, error texts, `WaitUntilRetry`, `RunReady`, `Snapshot`, `Get` of leases and the order of `ListOperations`.
- Other users of the lease manager are steps of the operation machine; other users of the catalog and the journal are not.
- Operations.Apply: the service is modelled as steps over shared values, not as objects, because its calls run concurrently; the catalog, lease and journal objects are proved separately against the same functions.
- OperationHistory.LifecycleHolds: only while every swap met its condition; it is false of every other history (`OperationHistory.LawfulIff`).
- `Get` reads the record and the request table under two locks; the model reads both in one step, which loses nothing because nobody can update a record before its request is stored.
- OperationHistory.AtMostOneOutcome: does not say that every ended operation has an outcome event, because the append may fail after the record was stored.
- OperationHistory.ArtifactsTellTheTruth: does not say that every completed operation has an artifact, because `PutArtifact` comes after the record was stored and may fail.
