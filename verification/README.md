# Verified model of the Decrypter runtime

This project models the parts of the extension whose correctness spans several calls,
crashes and other people's pushes, and proves what they promise. Each module names the
component it models; the specification functions are the component's own branches and
constants, the methods are its loops and in-place updates proved against them, and the
lemmas state what follows over whole runs.

| part | modules |
|---|---|
| durable steps: the stored tasks, their calls, every run of them | `Continuity`, `ContinuityCalls`, `ContinuityRuns`, `ContinuityEngine`, `MutationQueue` |
| idempotent writes: workers, crashes, recovery and verification around the steps | `WriteProtocol`, `WriteSafety`, `WriteTruth`, `WriteLimits`, `WriteRepair`, `WriteParked`, `WriteProgress` |
| guarded commits on a shared branch | `Git`, `ShadowDelta`, `GuardedCommit` |
| approval transactions | `Approvals`, `ApprovalRuns`, `ApprovalHistory` |
| reversing recorded operations | `Lines`, `Hunks`, `ChangeViews`, `ReversalPlan`, `ReversalHistory`, `ReversalRuntime` |
| overlapping requests for reversals | `ReversalRequests`, `ReversalConsent`, `ReversalOrder`, `ReversalLimits` |
| JSON with comments | `Jsonc`, `JsoncMeaning` |
| text patches | `Patch` |
| byte budgets of the context pack | `Budgets` |
| scope report and fingerprint | `Scope`, `ScopeVerdict` |
| shared | `Common`, `Text` |

How the model stands for the program:

- Commits, trees and blobs are values; a value is its own hash, so hashing is injective and
  history has no cycles. That a branch never returns to an old head is then proved, not
  assumed. Fresh random ids are numbers not used before.
- Time is a number that does not go back. `storage.local` and `storage.session` are maps.
- Concurrency is a state machine whose steps are the stretches between two awaits:
  `WriteProtocol` for workers on durable steps, `Approvals` for requests of one
  transaction, `ReversalRequests` for previews and applies of reversals, `MutationQueue` for
  the promise chain, lists of foreign pushes between the requests of a guarded commit.
- Classifiers written as regular expressions (sensitive, textual, categories, intents),
  the validation gate, and the conflict-marker and JSON checks of a file are given as
  booleans or functions.

Where a promise does not hold of the code, the project shows it and says what does hold:

- At-most-once writes need recovery to run before an expired write is claimed again, a
  verification answer to be used before the step is claimed again, and workers to stop when
  their lease ends (`WriteProtocol.Disciplined`). For each of the three `WriteLimits` has a
  run from the empty store that breaks this rule once, no other, and publishes twice.
- A published write whose journal entry was lost is never decided: it stays parked in every
  disciplined run, or is cancelled (`WriteParked.UnknownStaysParked`).
- A cancel is lost on a prepare or an apply in progress (`ApprovalRuns.CancelLostOnPrepare`,
  `ApprovalRuns.CancelLostOnApply`); `ApprovalRuns.CancelIsFinal` says exactly when something
  can still be published.
- Undo and redo of an operation need not alternate when requests overlap
  (`ReversalLimits.TwoUndos`). They do exactly when every reversal had read a direction that
  agreed with the branch (`ReversalRequests.AlternationExactly`), which is when none reads
  the state between another's move and its save, as long as saves do not overlap and no
  commit is made twice (`ReversalOrder.AlternationNeedsSaves`). Overlapping saves lose one of
  the directions (`ReversalLimits.OverlappingSavesLoseOne`).
- Undo of a hunk that was matched without its anchors can restore another text
  (`Hunks.AnchorsMatter`); `Hunks.BackAtTheSamePlace` says exactly when it comes out where
  it went in.
- The ambiguity check of a patch does not see overlapping occurrences
  (`Patch.OverlapIsNotSeen`); it tells a single occurrence exactly for texts without a border
  (`Patch.UniqueUnlessBordered`).
- The scope fingerprint depends on file order exactly when two different files tie in the
  locale's order of their paths (`Scope.OrderMattersOnlyInTies`).
- The first marker of an excerpt counts from line zero and appears even where nothing was
  left out (`Budgets.StartsWithMarker`).

## Model

| member | source | states |
|---|---|---|
| `ContinuityRuns.StatusAgreement` | core/continuity-engine.js:172-187 | In every store reachable from the empty one, keys within a task are distinct and a task that was not cancelled is completed exactly when it has steps and all of them are completed |
| `ContinuityRuns.CompletedIsAbsorbing` | core/continuity-engine.js:236-419 | Over any run of calls a completed step keeps its status and its result (operation, commit, digest) |
| `ContinuityRuns.CompletedWriteHasReference` | core/continuity-engine.js:285-297 | A write step that becomes completed anywhere in a run names an operation or a commit |
| `ContinuityRuns.GrantsAreAttempts` | core/continuity-engine.js:251-264 | Over any run the claims granted for a step are exactly the increase of its attempts, and none is granted past its attempt budget |
| `ContinuityRuns.DefinedInOrder` | core/continuity-engine.js:216-234 | After defining, the steps of a task stand in the order of their indices |
| `ContinuityRuns.LeaseFencing` | core/continuity-engine.js:274-327 | Once an issued token is no longer on a step, no call presenting it changes the step, whatever happened in between |
| `ContinuityRuns.WhatSupersedes` | core/continuity-engine.js:236-419 | A later granted claim, the recovery of an expired lease, a failure, a completion and a cancellation each take the token off the step |
| `ContinuityRuns.LiveLeaseIsExclusive` | core/continuity-engine.js:249-250 | Until a lease runs out, any run without its holder, a cancellation or a tokenless failure leaves it in place and grants no second claim |
| `ContinuityRuns.NoClaimAfterCancel` | core/continuity-engine.js:240-242 | After a cancellation every later claim is refused, whatever is called in between |
| `ContinuityRuns.ApplySound` | core/continuity-engine.js:151-161 | Every call, accepted or rejected, keeps distinct keys, status agreement and leases whose tokens were really issued |
| `Continuity.Apply` | core/continuity-engine.js:151-161 | A rejected call leaves the stored tasks as they were |
| `Continuity.Normalize` | core/continuity-engine.js:58-93 | A new step carries its descriptor over without a lease, takes its place by default, has the attempt budget asked for where that lies between 1 and 8 and else two for a write and four for the rest, and as a write is safe to retry only if the descriptor says so |
| `Continuity.FindStep` | core/continuity-engine.js:167-170 | The first step whose id or key matches, and only then an index inside the list |
| `ContinuityEngine.Engine.DefineSteps` | core/continuity-engine.js:216-234 | The loop over descriptors stores exactly the specified store: known keys skipped, the rest appended and sorted, closed tasks and bad counts refused without change |
| `ContinuityEngine.Engine.ClaimStep` | core/continuity-engine.js:236-272 | Stores and answers exactly what the claim specification says, in every refusal, replay, busy and granted case; a granted token owns the step, and completed steps keep their results |
| `ContinuityEngine.Engine.CompleteStep` | core/continuity-engine.js:279-305 | Stores and answers exactly what the completion specification says; whoever does not own the live lease changes nothing, and completed steps keep their results |
| `ContinuityEngine.Engine.FailStep` | core/continuity-engine.js:307-327 | Stores and answers exactly what the failure specification says, whose meaning is ContinuityCalls.FailExactly; a token that does not own the live lease changes nothing, without a token the lease is not checked; completed steps keep their results |
| `ContinuityEngine.Engine.ResolveWrite` | core/continuity-engine.js:329-355 | Stores and answers exactly what the specification of a decided verification says; nothing changes unless the step is parked, and completed steps keep their results |
| `ContinuityEngine.Engine.RecoverExpired` | core/continuity-engine.js:357-390 | The loops over tasks and steps store exactly the specified recovery of every expired lease, whose meaning is ContinuityCalls.RecoverExactly; completed steps keep their results |
| `ContinuityEngine.Engine.ResumeSteps` | core/continuity-engine.js:392-404 | Stores and answers exactly what the resume specification says; completed steps keep their results |
| `ContinuityEngine.Engine.CancelSteps` | core/continuity-engine.js:406-419 | Stores and answers exactly what the cancel specification says; completed steps keep their results |
| `ContinuityEngine.Engine.CheckpointStep` | core/continuity-engine.js:442-452 | Stores the checkpoint in the named step and changes nothing else; completed steps keep their results |
| `ContinuityCalls.ClaimAnswers` | core/continuity-engine.js:236-258 | A claim of a cancelled task, an unknown step, a completed, parked, closed, held or used up one is answered by its own refusal, replay or busy; each exactly where it applies |
| `ContinuityCalls.ClaimExactly` | core/continuity-engine.js:249-271 | Where none of these applies the claim is granted, for the asked time between fifteen seconds and ten minutes, uses up one attempt and one token, and changes nothing but this step |
| `ContinuityCalls.DefineAnswers` | core/continuity-engine.js:216-222 | A definition is refused, and the store kept, exactly for an unknown or closed task, no steps or too many, or a missing key |
| `ContinuityCalls.DefineExactly` | core/continuity-engine.js:223-233 | Every known step is kept, every key has a step, and each new step is the first descriptor of a new key |
| `ContinuityCalls.CompleteExactly` | core/continuity-engine.js:279-305 | A completion is accepted exactly from the owner of the live lease, or again for a completed step, of a write only with an operation or a commit; then the step is completed with that result and without a lease |
| `ContinuityCalls.FailExactly` | core/continuity-engine.js:307-327 | A step that failed is parked for verification if it is a write of unknown outcome, else interrupted exactly when it is resumable with attempts left, else failed |
| `ContinuityCalls.ResolveExactly` | core/continuity-engine.js:329-355 | A decision is taken of a parked step only: completed with a reference to its result, interrupted where a retry is safe, and otherwise refused, each refusal exactly for its reason |
| `ContinuityCalls.CheckpointExactly` | core/continuity-engine.js:442-452 | The named step has the checkpoint and nothing else changed |
| `ContinuityCalls.RecoverExactly` | core/continuity-engine.js:357-390 | Exactly the running steps without a live lease are recovered: a write is parked, any other step interrupted if and only if it is resumable with attempts left, else failed |
| `ContinuityCalls.RecoverLeavesAlone` | core/continuity-engine.js:357-390 | A task without such a step stays as it is |
| `ContinuityCalls.ResumeExactly` | core/continuity-engine.js:392-404 | A resume is refused exactly for a closed task or one with a parked step; else it interrupts exactly the failed steps that are resumable with attempts left |
| `ContinuityCalls.CancelExactly` | core/continuity-engine.js:406-419 | Everything unfinished is cancelled, every lease withdrawn, completed steps kept |
| `ContinuityCalls.StatusShows` | core/continuity-engine.js:172-187 | After a report, a decision or a definition a task is done only when all is done and else shows the most urgent thing first |
| `ContinuityCalls.RecoveredShows` | core/continuity-engine.js:172-187 | So does a task in which a step was recovered |
| `ContinuityCalls.NextStepIsFirst` | core/continuity-engine.js:434-438 | The step offered next is the first that is queued or interrupted |
| `ContinuityCalls.FailedStepIsRetried` | core/continuity-engine.js:307-327 | A resumable step that failed with attempts left is interrupted, so that it may be offered again, and its next claim is granted |
| `MutationQueue.QueueRefinesFold` | core/continuity-engine.js:143-161 | Under every interleaving of awaits the stored value is the fold of the settled mutators in enqueue order, a thrown one contributing nothing, and the settled ones are the oldest |
| `MutationQueue.NeverStuck` | core/operation-journal.js:30-40 | While a job is unsettled the oldest such job can advance, also behind one that threw |
| `MutationQueue.FoldIsRun` | core/continuity-engine.js:143-161 | The fold of the engine's mutators is the run of its calls, so what holds of runs holds of the stored tasks |
| `MutationQueue.StoredTasksAreTheRun` | core/continuity-engine.js:143-161 | Whatever the schedule of the calls' awaits, the stored tasks are what the run of the settled calls, in the order they were made, leaves behind |
| `WriteSafety.AtMostOnceWrites` | background/tool-runtime.js:113-227 | In every disciplined run of claims, head checkpoints, writes, lost answers, crashes, ticks, recoveries, verifications and foreign pushes, a write step's key publishes at most one commit |
| `WriteSafety.RetriesAreClean` | background/continuity-runtime.js:31-84 | In every disciplined run a write step that may be claimed again (queued, interrupted or failed) has published nothing |
| `WriteSafety.NextKeeps` | background/tool-runtime.js:176-227 | Each disciplined step of the protocol keeps the invariant tying every step to its publications, workers and verifications |
| `WriteTruth.CompletedMeansPublished` | background/tool-runtime.js:186-219 | In every disciplined run a completed write naming a commit published exactly that commit, once, and the branch still contains it |
| `WriteLimits.ReclaimWithoutRecovery` | core/continuity-engine.js:249-258 | From the empty store, a run whose one lapse is claiming an expired write again before recovery publishes the write twice |
| `WriteLimits.StaleVerification` | background/continuity-runtime.js:60-78 | From the empty store, a run whose one lapse is using a verification answer after the step was claimed again publishes the write twice |
| `WriteLimits.WorkerAfterLease` | background/tool-runtime.js:176-227 | From the empty store, a run whose one lapse is a worker moving the branch after its lease ran out publishes the write twice |
| `WriteRepair.JournaledWriteIsCompleted` | background/continuity-runtime.js:40-58 | For every write step of every reachable store whose lease has run out: if the lost write reached the journal (WriteProgress.JournaledIsWritten says when), recovery and verification complete it with the journaled commit, publish nothing and only recover the other steps |
| `WriteRepair.UnwrittenIsFreed` | background/continuity-runtime.js:60-78 | For every such step: if the head is still the one noted before the write and the journal is silent, the repair frees the step for another try exactly when it is safe to retry |
| `WriteRepair.UnknownIsParked` | background/continuity-runtime.js:80-84 | For every such step: if the head is another and the journal is silent, the repair leaves it parked |
| `WriteProgress.JournaledIsWritten` | core/tool-runtime.js:135-173 | In every run a worker that has journaled its commit left an entry with its task, key, operation and commit, which no later action removes |
| `WriteProgress.PublishedWriteIsRepaired` | background/continuity-runtime.js:31-58 | From any worker with a published commit and a live lease, the run in which it records the commit, dies, and the lease runs out, followed by recovery and one verification, completes the step with that commit and publishes nothing more |
| `WriteProgress.UndisturbedWrite` | background/tool-runtime.js:113-219 | Left alone, a write that may be claimed ends completed: one commit with the write's tree and message on the head there was, published once, journaled under the token, named by the step |
| `WriteProgress.UndisturbedRead` | background/tool-runtime.js:176-219 | Left alone, a step that does not write ends completed under its token, with the branch, the journal and the publications as they were |
| `WriteProgress.FailureIsReported` | background/tool-runtime.js:216-227 | A failing worker parks its write with the head noted before it; any other step may be tried again exactly when resumable with attempts left |
| `WriteProgress.ExceptionsAreReported` | background/tool-runtime.js:184-227 | An exception before the head is noted leaves the step to its lease, any later one is on its way to the report |
| `WriteProgress.MovedHeadStops` | core/guarded-commit.js:58-97 | Where the branch has left the noted head the worker gives up before it publishes, at its next look or by the refused push |
| `WriteProgress.ForeignPushParks` | background/continuity-runtime.js:60-84 | A foreign push between the noted head and the write parks the step without a publication, with the branch past the noted head |
| `WriteParked.UnknownStaysParked` | background/continuity-runtime.js:60-84 | A parked write published without a journal entry, or with the branch past the noted head, is never decided nor published again in any disciplined run: it stays parked or is cancelled |
| `WriteProtocol.FindEntry` | background/continuity-runtime.js:40-48 | The first journal entry of the step, or proof that the journal has none |
| `Git.NoReturn` | github/git-adapter.js:204-210 | Commits that contain one another are the same, so a fast-forward branch never returns to an old head |
| `Git.ChildAcceptance` | github/git-adapter.js:204-210 | On a branch containing its base, an unforced update to a child commit is accepted exactly when the base or the child itself is the head |
| `GuardedCommit.NoLostUpdate` | github/git-adapter.js:204-210 | Under any interleaving of fast-forward pushes every earlier head stays in the history, and of the commits built on one base at most one ever becomes the head |
| `GuardedCommit.Remote.UpdateBranch` | github/git-adapter.js:204-210 | The branch moves exactly when the target contains the head, and the history of heads grows by it |
| `GuardedCommit.Remote.Receive` | github/git-adapter.js:204-210 | Pushes of others only extend the history, and only by pushed commits |
| `GuardedCommit.Adapter.GetRef` | core/guarded-commit.js:51-56 | Reads the head and remembers it |
| `GuardedCommit.Adapter.PrepareShadow` | core/shadow-build.js:26-78 | Succeeds exactly for a sane, non-empty plan on the expected head, and then with the plan's own commit on that head |
| `GuardedCommit.Adapter.ApplyShadow` | core/shadow-build.js:80-99 | On success the prepared commit follows its base in the history with no head in between; on failure nothing of ours was added; undisturbed it succeeds; each refusal is given only where its cause lies |
| `GuardedCommit.Adapter.Publish` | core/guarded-commit.js:98-155 | Moving in and verifying: on success base and commit are adjacent heads and the checkpoint is published; on failure only foreign commits were added; each refusal is given only where its cause lies |
| `GuardedCommit.Adapter.AtomicCommit` | core/guarded-commit.js:58-155 | On success the published commit sits on the head the caller last saw, is exactly the plan and passed the delta check; on failure nothing was published; undisturbed, a sound plan is published |
| `GuardedCommit.Adapter.RollbackCheckpoint` | core/checkpoint-manager.js:103-135 | A rollback that succeeds yields a head with the checkpoint's base tree whose parent is the expected previous head; undisturbed, the rollback of the expected head succeeds; a rejection is answered only if an arrival moved the head away from the one that was read |
| `GuardedCommit.VerdictExactly` | core/checkpoint-manager.js:72-101 | The check says something definite of the expected head only, and finds it right exactly when it is the checkpoint's commit on the checkpoint's base |
| `GuardedCommit.NoDefinitiveFailure` | core/guarded-commit.js:101-135 | A commit prepared on its checkpoint's base never fails verification definitively, so automatic rollback is unreachable; it passes exactly while it is the head |
| `ShadowDelta.EvaluateDelta` | core/regression-sentinel.js:22-100 | Each violation is reported exactly where its cause lies in the plan, the tree or the changes; none is reported exactly when the plan is well formed, touches exactly the paths that changed and each change is the create, update or delete it says |
| `ShadowDelta.ExpectedChanges` | core/regression-sentinel.js:22-49 | The plan's own faults are found exactly, and without faults the map holds each planned path with its action |
| `ShadowDelta.PassedPlanIsExact` | core/regression-sentinel.js:50-88 | A plan that passes on the tree built from it names distinct paths; exactly those differ, with the planned content or gone, creates absent and updates and deletes present before |
| `Approvals.ValidatePreparedFiles` | core/approval-transaction.js:45-62 | Each violation is reported exactly where a path or an action has that fault; none exactly when the list is non-empty, whitelisted, of known actions and without a path twice; the result is then the normalised list |
| `Approvals.OnceOnly` | background/approval-runtime.js:310-384 | In every run of concurrent prepares, applies, crashes, cancels, replaced bundles and foreign pushes a transaction moves the branch to at most one commit; it sits on the frozen head and changes only whitelisted paths, as a validated list says |
| `Approvals.EveryRunIsSound` | background/approval-runtime.js:180-394 | Every reachable state keeps: stored and in-flight files were validated, built and published commits are plans of validated files on the frozen head; that each was revalidated before it was written is ApprovalHistory.EveryCommitWasVetted |
| `Approvals.PublishedShutsTheDoor` | background/approval-runtime.js:310-362 | Once the commit is out, admission, build and confirmation of any request end it or leave it where it is, also when the status was never saved |
| `ApprovalHistory.EveryCommitWasVetted` | background/approval-runtime.js:310-384 | Every commit published in any run was pushed by an apply that began before the transaction expired, was revalidated under the very scope and for the very files its validation holds, was built from those files past the gate, and was confirmed, in this order and each time on the frozen head |
| `ApprovalHistory.AdmitsExactly` | background/approval-runtime.js:325-352 | An apply passes its revalidation if and only if the head is the frozen one, the bundle holds the validated files within the whitelist and the scope is the validated one; with any other scope it ends for good and publishes nothing |
| `ApprovalHistory.BuildsExactly` | background/approval-runtime.js:352-362 | A commit is built exactly on the frozen head, from buildable files, past the gate; otherwise the request ends for good |
| `ApprovalHistory.PreparesExactly` | background/approval-runtime.js:180-288 | A prepare stores the validated transaction and its bundle exactly when the head is still the frozen one and the files are whitelisted and safe |
| `ApprovalHistory.ExpiredBeginsNothing` | background/approval-runtime.js:310-323 | Once the transaction has expired no request begins any more |
| `ApprovalRuns.Undisturbed` | background/approval-runtime.js:180-384 | From freezing on there is a run in which whitelisted, safe and buildable files are prepared, applied and published as exactly their plan on the frozen head, the status applied and the bundle gone |
| `ApprovalRuns.CancelIsFinal` | background/approval-runtime.js:386-394 | After a cancel something can still be published if and only if the branch stands on the frozen head and a request is under way that can reach the push: a prepare with time left and a buildable list, an apply of a buildable list, a built commit |
| `ApprovalRuns.CancelLostOnPrepare` | background/approval-runtime.js:280-288 | A cancel during a running prepare is undone when the prepare stores the transaction, and the files are applied and published |
| `ApprovalRuns.CancelLostOnApply` | background/approval-runtime.js:362-384 | A cancel during a running apply does not stop the commit, and the saved status overwrites the cancellation |
| `Text.SafePathIsNormal` | core/utils.js:21-45 | A path as the safe-path check returns it is its own normal form |
| `Text.ReturnedPathIsSafe` | core/utils.js:21-45 | The path the check returns, backslashes turned, passes it again unchanged and is the normal form of the path it was given |
| `Text.SafePathExactly` | core/utils.js:21-45 | A path is safe if and only if, its backslashes turned, it is names joined by slashes, none of them empty, a dot name or escaped, the first neither the repository's own directory nor a drive, without white space around it or control characters |
| `Lines.JoinOfSplit` | core/reversible-operations.js:20-20 | Splitting a text into lines and joining them gives the text back |
| `Lines.SplitOfJoin` | core/reversible-operations.js:98-99 | Joining at least one newline-free line and splitting gives the lines back |
| `Lines.CommonEnds` | core/reversible-operations.js:33-38 | The two counting loops find the shared ends, neither of which can be extended |
| `Lines.EndsAreLong` | core/reversible-operations.js:33-38 | The shared ends cover whatever the two lists have in common at top and bottom |
| `Hunks.DeriveHunk` | core/reversible-operations.js:32-48 | Returns the hunk: the block between the shared ends and up to the asked number of shared lines beside it |
| `Hunks.HunkExactly` | core/reversible-operations.js:32-48 | The block of a hunk stands between the lines shared at the top and at the bottom, and its two sides neither begin nor end with the same line |
| `Hunks.AnchorsExactly` | core/reversible-operations.js:41-47 | The anchors are the last shared lines above and the first below, as many as were asked for and exist |
| `Hunks.OneHunk` | core/reversible-operations.js:32-48 | There is exactly one hunk between two texts |
| `Hunks.Mirror` | core/reversible-operations.js:32-48 | The hunk of the opposite change is the mirror image: segments exchanged, anchors the same |
| `Hunks.Minimal` | core/reversible-operations.js:32-48 | For every way of writing the change as A-F-B to A-T-B the derived segments are no longer than F and T |
| `Hunks.ApplyHunk` | core/reversible-operations.js:65-100 | The scanning, filtering and splicing loops compute the specified merge: one candidate place, ambiguous or conflict |
| `Hunks.MergeExactly` | core/reversible-operations.js:65-100 | A change is merged at the one place beside its anchors, or, where the anchors are nowhere and something is replaced, at the one place of its block; without any place it is a conflict, with several ambiguous |
| `Hunks.SequenceMatches` | core/reversible-operations.js:50-57 | Finds every place of the block, in order |
| `Hunks.BackAtTheSamePlace` | core/reversible-operations.js:65-100 | Of a hunk put in and taken out, the places agree exactly when it went in beside its anchors or the anchors are nowhere afterwards, and then the lines are as before |
| `Hunks.RoundTrip` | core/reversible-operations.js:32-100 | If the forward hunk matched a text beside its anchors, every reverse hunk that merges returns the text exactly, insertions and deletions included |
| `Hunks.RoundTripOfMirror` | core/reversible-operations.js:65-100 | A merge beside its anchors followed by the merge of the mirror image returns the text at the same place |
| `Hunks.AnchorsMatter` | core/reversible-operations.js:80-84 | Without anchors the way back can lead elsewhere: a concrete text that does not come back |
| `ChangeViews.LineDelta` | core/scope-intelligence-v2.js:67-88 | Counts exactly the lines of the hunk's two segments and its shared ends |
| `ChangeViews.ChangedWindow` | core/patch-engine.js:156-172 | The index loops find the hunk's block; the window is its first lines with two lines of context, flagged exactly when cut |
| `ChangeViews.WindowRebuilds` | core/patch-engine.js:156-172 | A window that is not cut turns the old text into the new one and the new one into the old |
| `ReversalPlan.PlanFileReversal` | core/reversible-operations.js:119-245 | The plan filled in branch by branch is the one specified for the frame, direction, strategy and later edits |
| `ReversalPlan.BlockedExactly` | core/reversible-operations.js:146-177 | A plan is blocked exactly for sensitive paths and, unless replacing, for files that are not text; a replacing plan is ready exactly when the file is not at the goal, and destructive exactly when it is on neither side |
| `ReversalPlan.ReadyExactly` | core/reversible-operations.js:156-236 | A plan that keeps later work is ready if and only if the file is as the operation left it and nobody edited it since, or the changed block has its one place in what stands there now; else at rest at the goal, else in conflict |
| `ReversalPlan.ConflictExactly` | core/reversible-operations.js:179-236 | Each conflict is reported exactly where its cause lies in the three states of the file and its later edits |
| `ReversalPlan.MergeConflictExactly` | core/reversible-operations.js:194-203 | Of a file that needs a merge, the conflict is that of a block without a place exactly when it has none |
| `ReversalPlan.OnePlan` | core/reversible-operations.js:119-245 | A file's states, the direction, the strategy and the later edits leave one plan |
| `ReversalPlan.KeepsLaterWork` | core/reversible-operations.js:179-236 | A ready plan that is not a replacement starts from the reversed state without later edits, creates a missing file, or replaces one occurrence of the block and keeps every other line; it deletes only untouched files |
| `ReversalPlan.ReachesTheGoal` | core/reversible-operations.js:156-236 | Carried out from the reversed state, or replacing, a plan reaches the goal; other outcomes change nothing; destructive means replacing something else |
| `ReversalPlan.UndoThenRedo` | core/reversible-operations.js:109-113 | An untouched file goes back to its base state and by redo to where it was |
| `ReversalPlan.UndoThenRedoMerged` | core/reversible-operations.js:194-203 | A file edited elsewhere, undone by a merge beside the anchors, is exactly as edited once the redo goes through |
| `ReversalPlan.BuildReversalPlan` | core/reversible-operations.js:247-276 | Every file is planned; allowed exactly when nothing conflicts and something is to be done; destructive exactly when not preserving or some change is |
| `ReversalHistory.Alternation` | background/reversible-operations-runtime.js:130-140 | In a history lawful for an operation its first reversal is an undo, and undo and redo alternate |
| `ReversalHistory.CascadeRedoRestores` | background/reversible-operations-runtime.js:183-215 | In such a history a cascade redo follows a cascade undo and the branch has again the very tree it had before that undo |
| `ReversalHistory.CommittedReversal` | background/reversible-operations-runtime.js:373-388 | A committed reversal leaves every changed file as its plan says and every other path alone |
| `ReversalHistory.OutcomeIsCommitted` | core/reversible-operations.js:255-256 | With one plan a path, the committed tree shows each file as its plan leaves it, ready or not |
| `ReversalHistory.UntouchedIsReversed` | background/reversible-operations-runtime.js:260-285 | A file still as the operation or its undo left it, unedited, is in the committed tree what it was on the other side |
| `ReversalRuntime.Runtime.Preview` | background/reversible-operations-runtime.js:288-334 | Issues an unused ticket naming the reversal, the current head, the digest of the preview computed there and a life of ten minutes, and changes nothing else; refuses exactly where the preview cannot be computed |
| `ReversalRuntime.Runtime.Admit` | background/reversible-operations-runtime.js:336-351 | Each refusal of a ticket is answered exactly where it applies: not confirmed, unknown, used, expired, and a loss of work that was not confirmed |
| `ReversalRuntime.Runtime.Apply` | background/reversible-operations-runtime.js:390-483 | Keeps the history lawful and its tickets spent once each; success adds one confirmed reversal of the ticket's operation, direction and strategy on the previewed head whose commit is exactly the plan computed anew, with the previewed digest; failure records nothing and each refusal has its exact cause; an allowed preview that is confirmed in time, on the same head with the same digest and without arrivals, is applied when gate, recording and plan let it |
| `ReversalRuntime.Runtime.ApplyCascade` | background/reversible-operations-runtime.js:353-371 | The new head has the destination tree on the seen head with no head in between; only a foreign push stops it |
| `ReversalRuntime.Runtime.Record` | background/reversible-operations-runtime.js:460-468 | Storing the direction state keeps it the state the history of reversals implies |
| `ReversalRuntime.Runtime.ComputeCascade` | background/reversible-operations-runtime.js:183-215 | A cascade goes to the operation's parent or the head before the cascade undo, differs somewhere, and is allowed exactly when no sensitive path would change |
| `ReversalRuntime.Runtime.ComputeFiles` | background/reversible-operations-runtime.js:249-285 | The changes, the verdict and the digest are those of a plan for the operation's files between parent, source and head |
| `ReversalRuntime.OneComputed` | background/reversible-operations-runtime.js:249-285 | The stored operation, the head, the direction state and the later edits leave one preview: one verdict, one digest, one set of changes |
| `ReversalRuntime.AppliedKeepsLaterWork` | background/reversible-operations-runtime.js:390-483 | A preserving reversal that was carried out changed no file outside the operation and lost no later work in its files: untouched, exchanged as a whole when nobody had edited it, or one occurrence of the block exchanged and every other line kept |
| `ReversalRuntime.AppliedReverses` | background/reversible-operations-runtime.js:390-483 | A file still as the operation or its undo left it, unedited, is on the other side after an allowed reversal was carried out |
| `ReversalRuntime.AppliedUndoThenRedo` | background/reversible-operations-runtime.js:390-483 | Undo and redo both carried out, nothing else done to the file in between: it is what it was |
| `ReversalRuntime.AppliedUndoThenRedoMerged` | background/reversible-operations-runtime.js:390-483 | The same for a file edited elsewhere and undone by a merge beside the anchors: exactly as edited again |
| `ReversalRequests.TicketMovesOnce` | background/reversible-operations-runtime.js:336-351 | Over all interleavings of previews, applies, crashes and foreign pushes a ticket moves the branch at most once, on the head it was issued for |
| `ReversalRequests.MovesAreAsPreviewed` | background/reversible-operations-runtime.js:390-483 | Over all interleavings whatever moved the branch is exactly what its ticket's preview showed, recomputed on the same head |
| `ReversalConsent.EveryMoveWasConfirmed` | background/reversible-operations-runtime.js:288-351 | Over all interleavings whatever moved the branch had a ticket that was issued for its preview and later, less than ten minutes after, unused and known, confirmed by an apply, and confirmed once more where it loses work |
| `ReversalRequests.AlternationExactly` | background/reversible-operations-runtime.js:130-140 | Over all interleavings the reversals of an operation on the branch alternate if and only if each had read a stored direction that agreed with the branch when it read it |
| `ReversalOrder.AlternationNeedsSaves` | background/reversible-operations-runtime.js:240-242 | With saves that do not overlap and no commit made twice: they alternate if and only if none of them had read the state between another's move and its save |
| `ReversalOrder.OrderedIsLawful` | background/reversible-operations-runtime.js:183-215 | ... and then the operation's history is as if its requests had come one after another, so a cascade redo leaves the very tree from before the cascade undo |
| `ReversalLimits.TwoUndos` | background/reversible-operations-runtime.js:428-468 | For every operation a cascade can undo, a run with two undos in a row: the second is previewed and applied after the first moved the branch and before it was stored |
| `ReversalLimits.OverlappingSavesLoseOne` | background/reversible-operations-runtime.js:123-128 | Two saves that overlap leave the state of the operation stored first as it was before |
| `Jsonc.StripJsonComments` | core/validation-gate.js:16-50 | The flag-and-index scanner computes the recursive specification of comment removal |
| `Jsonc.StripTrailingCommas` | core/validation-gate.js:52-79 | The flag-and-index scanner computes the recursive specification of comma removal |
| `JsoncMeaning.CommentsAreStripped` | core/validation-gate.js:16-50 | Removing comments leaves the text of the same tokens and blanks, a line feed for each line comment and nothing for a block comment |
| `JsoncMeaning.CommasAreStripped` | core/validation-gate.js:52-79 | Removing commas drops exactly the commas whose next token closes, strings untouched |
| `JsoncMeaning.StrippingKeepsMeaning` | core/validation-gate.js:81-84 | However a JSON value is laid out with blanks, comments and single trailing commas, the stripped text tokenizes to the value's strict tokens |
| `JsoncMeaning.StrictIsUnchanged` | core/validation-gate.js:81-84 | Strict JSON passes through unchanged |
| `JsoncMeaning.TokensAreRead` | core/validation-gate.js:81-84 | The reference tokenizer reads back the tokens of any comment-free layout |
| `Patch.CountOccurrences` | core/patch-engine.js:11-22 | The loop counts the occurrences a left-to-right search takes; none for an empty text |
| `Patch.ReplaceOccurrence` | core/patch-engine.js:24-35 | A result exactly for numbers from one to the count, and then with that occurrence replaced and the rest kept |
| `Patch.CountIsMaximal` | core/patch-engine.js:11-22 | The count is the largest number of pairwise disjoint occurrences: none has more, one has as many |
| `Patch.OneIsNotUnique` | core/patch-engine.js:113-120 | A count of one means every occurrence overlaps the first, not that it is the only one |
| `Patch.OverlapIsNotSeen` | core/patch-engine.js:113-120 | Every bordered text has a source in which it occurs twice and is counted once |
| `Patch.UniqueUnlessBordered` | core/patch-engine.js:113-120 | A count of one means a single occurrence, in every source, if and only if the searched text has no border: no proper part that both begins and ends it |
| `Patch.ApplyEdit` | core/patch-engine.js:91-139 | Fails exactly with the fault of the edit, else replaces the one named occurrence; the replacement never fails after the count was checked |
| `Patch.ApplyTextPatch` | core/patch-engine.js:62-154 | All or nothing, each answer exactly where it applies: a stale blob, a stale content, no edits, else the first edit that could not be made, else success; it succeeds if and only if both checks pass, there are edits and a chain of single replacements from the text exists, and then with its end and the stated line delta |
| `Patch.FaultExactly` | core/patch-engine.js:91-129 | What is wrong with an edit: nothing to look for, none of it there, several with none named, a number out of range; each exactly then |
| `Patch.EditIsReplacement` | core/patch-engine.js:121-139 | An edit exchanges the named occurrence, or the only one, and keeps what is before and behind it |
| `Patch.LinesReplaced` | core/patch-engine.js:142-151 | One replacement changes the number of lines by what the edit itself does |
| `Budgets.BudgetedText` | core/context-engine-v2.js:177-188 | The binary search returns the longest prefix whose UTF-8 size fits, surrogate pairs split or not, wasting less than one unit |
| `Budgets.FitIsUnique` | core/context-engine-v2.js:177-188 | There is one longest fitting prefix |
| `Budgets.OneMoreUnit` | core/context-engine-v2.js:177-188 | One more unit always costs between one and three bytes, also the one completing a surrogate pair |
| `Budgets.FindMatches` | core/context-engine-v2.js:194-199 | The loop finds the lines that mention the request, at most sixteen |
| `Budgets.HitsAreFirst` | core/context-engine-v2.js:194-199 | They are in order, and a mention left out comes after sixteen others |
| `Budgets.ShowsWhatIsNear` | core/context-engine-v2.js:204-213 | The excerpt shows exactly the lines within a match's window |
| `Budgets.MarkersTell` | core/context-engine-v2.js:206-212 | A marker between shown lines names exactly the lines left out; one at the start counts from zero |
| `Budgets.StartsWithMarker` | core/context-engine-v2.js:206-212 | An excerpt that shows anything starts with a marker counting from zero |
| `Budgets.ExcerptSays` | core/context-engine-v2.js:190-217 | The lines of the text a long file that mentions the request is cut from are, without the markers' own, exactly the file's lines near a mention, in order; the rest are the markers |
| `Budgets.MarkerSpells` | core/context-engine-v2.js:206-212 | A marker is an empty line and a comment with the two line numbers in decimal digits |
| `Budgets.NothingMentioned` | core/context-engine-v2.js:200-203 | A file that does not mention the request is cut as it is |
| `Budgets.SelectFiles` | core/context-engine-v2.js:245-270 | The used bytes are the sum of the files' bytes within the code budget; every file is whole or the longest fitting part of its excerpt or text, cut to the room left, and looking stops only at a limit |
| `Budgets.LimitsAreKept` | core/context-engine-v2.js:245-252 | No file is entered beyond the file limit, with less than 4000 bytes of room, or, after five, without a score |
| `Budgets.BuildContextPack` | core/context-engine-v2.js:224-286 | Code and knowledge text together stay within the total budget |
| `Budgets.LimitsFor` | core/context-engine-v2.js:224-227 | Every requested budget is clamped, the code budget never above the total |
| `Scope.EvaluateScopeIntelligence` | core/scope-intelligence-v2.js:136-253 | The loops report every fault exactly as often as it occurs and allow exactly when there is none; which faults these are is ScopeVerdict.ViolationsExactly |
| `ScopeVerdict.ViolationsExactly` | core/scope-intelligence-v2.js:136-220 | A violation is in the report exactly where the change is wrong in that way: nothing requested, planned or changed; a path missing, repeated or outside the plan; an unknown action; a delete not intended; a long file rewritten; the scope lock; a user's edit neither named nor overridden |
| `ScopeVerdict.AllowedExactly` | core/scope-intelligence-v2.js:136-253 | A change is allowed if and only if request, plan and diff are there, every path is there once and approved, every action known, every delete intended and named, no file of thirty lines or more changed beyond 0.55 without a broad request, the scope lock content, and every touched lock overridden or named |
| `Scope.DeriveHumanIntentLocks` | core/scope-intelligence-v2.js:32-56 | A path is locked exactly when a recent user event names it, with a count and an event id for each time it is named |
| `Scope.MoreEditsBlockMore` | core/scope-intelligence-v2.js:184-220 | Adding user-edit events never turns a blocked change into an allowed one |
| `Scope.EverythingReordered` | core/scope-intelligence-v2.js:159-182 | With distinct non-empty paths the faults do not depend on the order of the files |
| `Scope.OrderMattersOnlyInTies` | core/scope-intelligence-v2.js:261-267 | The sorted audit list is the same for every order of the files exactly when no two different audits tie in the locale's order |
| `Scope.FingerprintIsCanonical` | core/scope-intelligence-v2.js:255-275 | For distinct non-empty paths that do not tie the fingerprint is the same under any reordering of the files |
| `Scope.FingerprintTells` | core/scope-intelligence-v2.js:255-275 | Reports with the same fingerprint agree on the verdict, the paths, the changes with their actions and sizes, the user's locks and what was done about them, and every violation |

## Left out

- WriteSafety.AtMostOnceWrites: direct `resolve_write`, `complete_step`, `checkpoint`, `claim` and tokenless `fail_step` port calls, and steps defined with a status or attempts of their own, are outside `Disciplined`; the results of `ContinuityRuns` hold with all of them.
- WriteSafety.AtMostOnceWrites: one branch is assumed; a patch sent to another branch than the checkpointed one, and a write tool run on a step defined as a read, bypass the verification this rests on.
- WriteProtocol.Next: the worker side is a state machine over its await points, not a method, since the point is the interleaving; a verification reads the step, the journal and the head at one moment, where the source awaits between the three.
- ContinuityRuns.LeaseFencing: lease owner, timestamps, metadata and error texts of a step are not modelled.
- Continuity.Apply: tasks are a map by id; the limits of 120 tasks, 500 journal entries and 80 checkpoints, and what eviction loses, are not modelled; a created id is always new.
- Continuity.Normalize: numbers are whole, and the random id of a step that has none is given with the descriptor.
- Continuity.SortByIndex: the library's stable sort is a specification function.
- GuardedCommit.Adapter.AtomicCommit: the branch and pull-request path, forced pushes by others and the account guard are left out; the gate is a boolean; a request that fails on the network is a refusal or an abandoned run.
- GuardedCommit.Adapter.PrepareShadow: a path that is both a file and a directory, and the remote's own refusal to delete a missing path, are not modelled.
- ShadowDelta.EvaluateDelta: warnings about shrinking content are left out.
- Approvals.OnceOnly: scope lock, scope intelligence and state revision are one value compared with the validated one; the frozen plan's texts, attachments and history rows are left out; a replaced bundle changes files and message, while the source also takes owner, repository and branch from it.
- ApprovalRuns.CancelIsFinal: somebody may put back the bundle a cancel removed, as anybody may replace a stored bundle.
- ReversalRuntime.Runtime.Apply: the object carries out one request at a time, with other people's pushes inside; requests that overlap are the state machine of `ReversalRequests`, where the head checks inside a guarded commit and the check after a cascade's push are requests that end.
- ReversalRuntime.Runtime.ComputePreview: dependent operations, timestamps of later edits and the lookup of operations in the journal are given.
- ReversalPlan.PlanFileReversal: blob ids, hashes and the rendered preview are left out.
- ChangeViews.LineDelta: the rounded ratio is left out.
- Hunks.ApplyHunk: works on the hunk record as derived; hunks with missing fields are not modelled.
- JsoncMeaning.StrippingKeepsMeaning: numbers and literal names are words of letters, digits, signs and dots; that a token sequence determines the parsed value is left to the parser.
- Patch.ApplyTextPatch: path checks and hashes are left out; contents stand for their hashes.
- Budgets.SelectFiles: scoring and sorting are given with the candidates; whether a line mentions a word of the request is a function.
- Scope.EvaluateScopeIntelligence: warnings, external signals and evidence lists are left out; the older scope lock is its count of complaints.
- The local agent orchestrator, model router, skills, MCP catalogue, sandbox and session records, licensing, OAuth and the user interface are left out: plumbing or short case analyses.
- The daemon's job engine is not part of this model; its source is not in the repository.
