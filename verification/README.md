# A verified model of WinWinCode's client protocols and build cache

WinWinCode is a self-hosted AI programming tool. This project models, in Dafny, the parts of it
whose correctness depends on the order of events, and proves what they promise over every run:

- `EditableDraft.dfy`: drafts of server records with three-way merge, conflicts and submissions.
- `Clarification.dfy`: the clarification form, whose saves are retried under one idempotency key.
- `DeliverySaga.dfy`, `DeliverySagaRuns.dfy`: creating a delivery from a chat, a three-step saga with
  retries, cancellation and resets, against a server that applies each request id once.
- `BuildCache.dfy`, `BuildCacheSafety.dfy`, `BuildCacheTimes.dfy`, `BuildCacheBuilders.dfy`: the shared
  Rust build cache, with builders, their children and cleaners working on locked buckets, crashes and
  clock jumps included.
- `DiffPreview.dfy`: reading unified diffs, against a printer of edit scripts.
- `DeliveryList.dfy`: the home page's list, rebuilt page by page behind the previous rebuild.
- `MessageStore.dfy`, `ModelRoutes.dfy`, `ArtifactDownload.dfy`: the chat's message list, its choice
  of a model route, and its chunked downloads.
- `DecisionCards.dfy`, `HomeSections.dfy`: ordering attention items and folding them into cards, and
  dealing deliveries out to the sections of the home page.
- `StableSort.dfy`: sorting by a comparator, for the lists above.
- `Occupancy.dfy`: claiming and releasing devices.
- `PreviewHistory.dfy`: the preview's back and forward stacks.
- `Repositories.dfy`: the repository list of the selected device.
- `Knowledge.dfy`: the knowledge catalogue, its tombstones and the restoring of backups.

A component that updates its own variables appears twice: a `…Spec` module with its state as a
value, one function per operation, the invariant and the theorems over runs; and an `…Object` module
with a class that has the source's variables, where each method is proved to do what the function
says. An `async` operation is cut at its awaits: one method up to the call and one from the reply on.
Every reply may come at any time, in any order, or never. The build cache is a state machine over the
steps between its file system calls.

Some promises turned out to hold only under a condition, which is stated exactly:

- A retried clarification save is the same request, except that its source bindings are those of an
  older revision when a refresh answered with one (`OneKeyOneRequest`, `OneKeyOneRequestInOrder`,
  `SaveIsCurrentExactly`, `OlderRefreshChangesTheSource`).
- The creation callback is told once, unless a create call is refused while `created` is shown
  (`AnnouncedAtMostOnce`, `RefusalAnnouncesAgain`).
- A cache bucket keeps a valid record, unless its removal is cut short after the record has gone
  (`RecordLostExactly`, `CutRemovalIsForGood`).
- A bucket is not removed within 24 hours of its last use, unless that use was not recorded after it
  ended (`EarlyRemovalExactly`, `EarlyRemovalInTime`, `OutworkedExactly`, `JustUsedBucketIsRemoved`).
- A draining release was asked for as such, unless the device had no work when it was requested
  (`DrainWasAskedExactly`); a confirmed call applies to its device, unless it is a retry of a call that
  failed on a device no longer suited and no list has come since (`ConfirmedCallApplies`,
  `RetryGoesThrough`).
- A deleted knowledge source stays deleted over a restored backup, unless the backup did not know it
  (`DeletionSurvivesRestore`).
- The dirty fields of a draft are those that differ from the server, unless a snapshot leaves out
  fields that were not dirty (`PartialSnapshots`, `PartialRuns`).

`dafny verify dfyconfig.toml` checks the whole project.

## Model

| member | source | states |
|---|---|---|
| `DraftSpec.InvRun` | apps/client/src/editable-draft.ts:142-252 | in every run of snapshots, edits, submissions and resolutions: the dirty fields are exactly those whose draft value is not the server value; base, server and values have the same fields; each conflict is about a dirty field, once, with its true base, server and draft values; a submission carries the value of every field still dirty |
| `DraftSpec.InvStep` | apps/client/src/editable-draft.ts:142-250 | each operation keeps that invariant |
| `DraftSpec.MergeIsThreeWay` | apps/client/src/editable-draft.ts:142-197 | a snapshot at least as new as the last loses no edit: clean fields take the server value, dirty fields keep the draft and turn clean exactly when the server agrees with it; a field left dirty keeps its base |
| `DraftSpec.MergeConflictsExactly` | apps/client/src/editable-draft.ts:158-184 | a conflict is reported exactly on the dirty fields whose base is not the server value or, in sensitive mode, on every dirty field once the revision moved |
| `DraftSpec.PartialSnapshots` | apps/client/src/editable-draft.ts:142-197 | when a snapshot leaves fields out, dirty is still the difference if and only if every field left out was dirty already |
| `DraftSpec.PartialRuns` | apps/client/src/editable-draft.ts:142-250 | over every run, partial snapshots included: dirty is right on every field the server has, and is the whole difference if and only if every field the server lacks is dirty |
| `DraftSpec.RepeatedSyncIsIdle` | apps/client/src/editable-draft.ts:142-197 | applying the same snapshot twice is applying it once |
| `DraftSpec.DirtyFieldsKeepLastEdit` | apps/client/src/editable-draft.ts:142-250 | at the end of any run a dirty field shows the value typed last |
| `DraftSpec.DirtyValuesStay` | apps/client/src/editable-draft.ts:142-250 | no step but an accepted edit makes a field dirty or changes a dirty value |
| `DraftSpec.MirrorIsNewest` | apps/client/src/editable-draft.ts:142-197 | the server mirror is the newest snapshot delivered, whatever the order |
| `DraftSpec.MirrorConverges` | apps/client/src/editable-draft.ts:142-197 | snapshots of one scope in any order, repeated and mixed with any user action leave the mirror at the newest of them |
| `DraftSpec.DraftIsLedger` | apps/client/src/editable-draft.ts:142-250 | over every run the draft is a ledger of unsaved edits over the newest snapshot: values, dirty fields, base, conflicts and submission are those of the ledger, which a newer snapshot slides under |
| `DraftSpec.EditLostExactly` | apps/client/src/editable-draft.ts:142-250 | a step leaves an edit as it is, exactly unless it edits the field, takes the server's side, finishes with success, drops the draft, or brings another scope or the very value |
| `DraftSpec.ResolutionExact` | apps/client/src/editable-draft.ts:232-247 | keeping the draft leaves every field as it is, dirty exactly where it differs from the server; taking the server's side leaves nothing dirty; both settle all conflicts and move the base to the server |
| `DraftSpec.KeepDraftKeepsEdits` | apps/client/src/editable-draft.ts:238-246 | after every run keeping the draft leaves each dirty field at the last edit accepted |
| `DraftSpec.ConflictsShow` | apps/client/src/editable-draft.ts:173-184 | in every run a conflict shows base, server and draft value of its field, and of a redacted field nothing |
| `DraftObject.EditableDraft.constructor` | apps/client/src/editable-draft.ts:82-95 | a new draft is the cleared draft |
| `DraftObject.EditableDraft.Reset` | apps/client/src/editable-draft.ts:114-125 | clears every variable |
| `DraftObject.EditableDraft.Adopt` | apps/client/src/editable-draft.ts:127-138 | takes the snapshot as base, server and values, with nothing dirty |
| `DraftObject.EditableDraft.MergeFields` | apps/client/src/editable-draft.ts:153-184 | the loop over the snapshot keys computes the field-wise merge and the exact list of conflicts |
| `DraftObject.EditableDraft.Synchronize` | apps/client/src/editable-draft.ts:142-197 | refines Synchronized: clear, adopt on another scope, ignore an older revision, otherwise merge |
| `DraftObject.EditableDraft.Merge` | apps/client/src/editable-draft.ts:153-196 | refines Merged: the loop over the fields takes a server value over, keeps a local one or marks a conflict, and recomputes dirty |
| `DraftObject.EditableDraft.Edit` | apps/client/src/editable-draft.ts:198-205 | refines Edited: refused while submitting or without a scope; otherwise the value, its dirtiness and the conflict it lifts |
| `DraftObject.EditableDraft.BeginSubmission` | apps/client/src/editable-draft.ts:206-219 | refines Begun; a submission is returned exactly for a draft with a scope, without a submission under way and without conflicts |
| `DraftObject.EditableDraft.FinishSubmission` | apps/client/src/editable-draft.ts:220-231 | refines Finished: success takes over the server side, anything else only gives up the submission |
| `DraftObject.EditableDraft.ResolveConflicts` | apps/client/src/editable-draft.ts:232-250 | refines Resolved: taking the server side or keeping the draft, with base, dirty and conflicts recomputed |
| `ClarificationSpec.OneKeyOneRequest` | apps/client/src/decision-clarification-view-model.ts:430-492 | over every run two saves with one request id go to the same delivery with the same expected revision and values, and are equal as a whole if and only if their sources are of one revision |
| `ClarificationSpec.SaveIsCurrentExactly` | apps/client/src/decision-clarification-view-model.ts:333-462 | in every run a save has the source of the revision it expects if and only if the last reply applied before it was not older than what the draft had seen |
| `ClarificationSpec.OneKeyOneRequestInOrder` | apps/client/src/decision-clarification-view-model.ts:430-492 | two saves with one request id are the same save if before neither of them the last reply applied was older than what the draft had seen, and differ if that was so before exactly one of them |
| `ClarificationSpec.SoundRun` | apps/client/src/decision-clarification-view-model.ts:333-497 | while a key may be reused the draft is still what it carried, or has nothing to save, or each dirty field is held back by a conflict; kept by every event |
| `ClarificationSpec.GuardedSync` | apps/client/src/decision-clarification-view-model.ts:333-347 | a refresh, at the same or a newer revision, keeps that guard |
| `ClarificationSpec.ResentAlike` | apps/client/src/decision-clarification-view-model.ts:451-462 | a save sent under a kept key carries what the key was sent with before |
| `ClarificationSpec.OlderRefreshChangesTheSource` | apps/client/src/decision-clarification-view-model.ts:333-347 | the source can differ: wherever a kept key would be sent again, a refresh that answers an older revision makes the retry the same save but for its source |
| `ClarificationSpec.FailedSaveIsPossible` | apps/client/src/decision-clarification-view-model.ts:451-491 | a run reaches such a state: load, edit, a save that fails, with an older revision left to answer |
| `ClarificationSpec.TypedIsLostExactly` | apps/client/src/decision-clarification-view-model.ts:333-497 | in every run an event leaves what the user typed as it is, exactly unless it is an edit of the field, the choice of the server's values, the close, a save that succeeded, or a reply of another delivery or with the very value |
| `ClarificationSpec.ReloadShowsConflicts` | apps/client/src/decision-clarification-view-model.ts:472-491 | the reload after a rejected save keeps every edit that it does not agree with, dirty and unchanged, and shows it as a conflict exactly if the reply has moved on from the revision or the value the edit started at, as every newer reply has |
| `ClarificationSpec.SavedIsClean` | apps/client/src/decision-clarification-view-model.ts:463-470 | a save that succeeded leaves nothing dirty and no key; the form shows the server's values, those of the reply unless a newer one came first |
| `ClarificationSpec.SavesCarryTheDraft` | apps/client/src/decision-clarification-view-model.ts:430-462 | every save ever sent has the values, the revision and the source that the form showed when it was submitted, valid, online, dirty and without conflicts |
| `ClarificationSpec.SameKeyExactly` | apps/client/src/decision-clarification-view-model.ts:384-491 | in every run a save goes out under the key of an earlier one exactly if since then nothing was edited or resolved, no save has succeeded and no conflict been reloaded |
| `ClarificationSpec.SubmissionIsAwaited` | apps/client/src/decision-clarification-view-model.ts:451-491 | in every run the form is held by a submission only while a save, or the reload after one, is under way |
| `ClarificationSpec.LoadIsAppliedExactly` | apps/client/src/decision-clarification-view-model.ts:333-346 | a load is applied if and only if nothing was loaded or saved since it was issued and the form is open |
| `ClarificationSpec.StatusTellsLastLoad` | apps/client/src/decision-clarification-view-model.ts:333-383 | in every run the status is what the loads told last: editing after one that was applied, failed after a first one that failed |
| `ClarificationObject.ClarificationViewModel.constructor` | apps/client/src/decision-clarification-view-model.ts:284-294 | an idle model |
| `ClarificationObject.ClarificationViewModel.BeginLoad` | apps/client/src/decision-clarification-view-model.ts:333-335 | a load takes a new generation |
| `ClarificationObject.ClarificationViewModel.FinishLoad` | apps/client/src/decision-clarification-view-model.ts:336-346 | only the newest load is applied, to the snapshot and to the draft |
| `ClarificationObject.ClarificationViewModel.FailLoad` | apps/client/src/decision-clarification-view-model.ts:364-383 | a failed load is shown on a start and otherwise keeps the form as it is |
| `ClarificationObject.ClarificationViewModel.Edit` | apps/client/src/decision-clarification-view-model.ts:384-390 | an edit drops the pending key and edits the draft |
| `ClarificationObject.ClarificationViewModel.SetOffline` | apps/client/src/decision-clarification-view-model.ts:417-422 | sets the flag |
| `ClarificationObject.ClarificationViewModel.ResolveConflicts` | apps/client/src/decision-clarification-view-model.ts:423-429 | a resolution drops the pending key |
| `ClarificationObject.ClarificationViewModel.Submit` | apps/client/src/decision-clarification-view-model.ts:430-462 | sends only a valid, online, conflict-free draft, under the pending key or a new one |
| `ClarificationObject.ClarificationViewModel.CompleteSave` | apps/client/src/decision-clarification-view-model.ts:463-471 | a completed save drops its key and adopts the saved snapshot |
| `ClarificationObject.ClarificationViewModel.RejectSave` | apps/client/src/decision-clarification-view-model.ts:486-491 | a failed save keeps draft and key |
| `ClarificationObject.ClarificationViewModel.FinishReload` | apps/client/src/decision-clarification-view-model.ts:474-491 | the reload after a conflict drops the key and merges what it answers |
| `ClarificationObject.ClarificationViewModel.FailReload` | apps/client/src/decision-clarification-view-model.ts:483-491 | a failed reload leaves the error |
| `ClarificationObject.ClarificationViewModel.Close` | apps/client/src/decision-clarification-view-model.ts:493-497 | clears the draft and ends everything |
| `SagaSpec.InvRun` | apps/client/src/chat-delivery-creator.ts:161-362 | in every run each attempt holds one create, items and start command, each minted once, each later one only after the earlier was applied; everything sent is a command of some attempt |
| `SagaSpec.ResentUnchanged` | apps/client/src/chat-delivery-creator.ts:220-306 | over every run with retries, cancellations and resets an attempt sends one create, one items and one start command, unchanged each time and all for one delivery; no id stands for two commands |
| `SagaSpec.AtMostOneEffect` | apps/client/src/chat-delivery-creator.ts:262-306 | a server that applies an id once gets at most one effect per step of an attempt |
| `SagaSpec.StepsInOrder` | apps/client/src/chat-delivery-creator.ts:262-306 | no step is sent before the server applied the one before it |
| `SagaSpec.CreatedIsComplete` | apps/client/src/chat-delivery-creator.ts:302-306 | `created` is shown only when all three steps have been applied, for the delivery shown |
| `SagaSpec.AnnouncedAtMostOnce` | apps/client/src/chat-delivery-creator.ts:302-312 | the creation callback is told of an attempt at most once when no create call is refused while `created` is shown |
| `SagaSpec.RefusalAnnouncesAgain` | apps/client/src/chat-delivery-creator.ts:178-218 | and the condition is needed: from every reachable state where one is refused, calling again with the same input tells it again |
| `SagaRuns.AttemptsExactly` | apps/client/src/chat-delivery-creator.ts:161-353 | in every run there are as many attempts as created deliveries were put away, and one more while one is under way: cancelling, failing and retrying start none |
| `SagaRuns.CreationsPerRestart` | apps/client/src/chat-delivery-creator.ts:161-353 | the server never applies a command of more attempts than that |
| `SagaRuns.CreationsOfTwoAttempts` | apps/client/src/chat-delivery-creator.ts:219-353 | between two creations sent under different ids a delivery shown as created was put away |
| `SagaRuns.CreatedWasTold` | apps/client/src/chat-delivery-creator.ts:262-279 | the revision an attempt was created at is that of the reply to its creation |
| `SagaRuns.ItemsWereTold` | apps/client/src/chat-delivery-creator.ts:280-291 | the items command has the contract revision and criteria of the aggregate read for its attempt |
| `SagaRuns.StartWasTold` | apps/client/src/chat-delivery-creator.ts:293-301 | the start command has the revision that the items were answered with |
| `SagaRuns.AttemptOnlyGrows` | apps/client/src/chat-delivery-creator.ts:219-353 | until its delivery is put away, an attempt keeps its commands and what it has learnt, whatever happens |
| `SagaRuns.RetryGoesOn` | apps/client/src/chat-delivery-creator.ts:218-310 | after every run a submission that failed or was cancelled goes on, made again, with the same attempt, and sends the command it stopped at unchanged |
| `SagaRuns.TakenUpExactly` | apps/client/src/chat-delivery-creator.ts:161-254 | a submission is taken up if and only if nothing is under way or shown as created, no required part is blank, and it is the one of the attempt, if there is one |
| `SagaRuns.OthersAreRefused` | apps/client/src/chat-delivery-creator.ts:212-218 | while there is an attempt, another submission sends nothing and shows an error unless a run is under way |
| `SagaRuns.ShownWasCreated` | apps/client/src/chat-delivery-creator.ts:132-137 | in every run a delivery is shown only if the server has created it |
| `SagaRuns.StoppedShowsError` | apps/client/src/chat-delivery-creator.ts:312-353 | a cancelled submission, and one whose call fails, shows the error and keeps its attempt |
| `SagaRuns.AcceptedWaits` | apps/client/src/chat-delivery-creator.ts:268-277 | an accepted creation waits with its attempt, and cancelling it shows the error |
| `SagaRuns.ClosedIsFinal` | apps/client/src/chat-delivery-creator.ts:355-362 | after the close nothing changes and nothing is sent |
| `SagaRuns.StaleCallIsSilent` | apps/client/src/chat-delivery-creator.ts:260-318 | the reply or failure of a call that is not the active one changes nothing on show |
| `SagaRuns.SubmissionCompletes` | apps/client/src/chat-delivery-creator.ts:161-311 | every submission that is taken up can be completed, from wherever its last try stopped, as one attempt, and is then shown and announced |
| `SagaObject.DeliveryCreator.constructor` | apps/client/src/chat-delivery-creator.ts:117-130 | an idle creator |
| `SagaObject.DeliveryCreator.Publish` | apps/client/src/chat-delivery-creator.ts:132-137 | the state shown carries the delivery id once it is known |
| `SagaObject.DeliveryCreator.Create` | apps/client/src/chat-delivery-creator.ts:161-254 | busy calls do nothing, refused ones show the error, others start or take up the attempt under a new controller |
| `SagaObject.DeliveryCreator.Fail` | apps/client/src/chat-delivery-creator.ts:307-312 | a failure is shown only for the active controller, which is given up |
| `SagaObject.DeliveryCreator.AnswerCreate` | apps/client/src/chat-delivery-creator.ts:262-279 | records the created delivery |
| `SagaObject.DeliveryCreator.AnswerAggregate` | apps/client/src/chat-delivery-creator.ts:280-292 | mints the items command once, from the criteria of the aggregate |
| `SagaObject.DeliveryCreator.AnswerItems` | apps/client/src/chat-delivery-creator.ts:293-301 | mints the start command once |
| `SagaObject.DeliveryCreator.AnswerStart` | apps/client/src/chat-delivery-creator.ts:302-306 | shows `created` and announces it, for the active controller |
| `SagaObject.DeliveryCreator.ResetCreated` | apps/client/src/chat-delivery-creator.ts:327-331 | forgets a finished attempt |
| `SagaObject.DeliveryCreator.CancelPending` | apps/client/src/chat-delivery-creator.ts:332-354 | aborts a call and keeps an attempt that may have had effects |
| `SagaObject.DeliveryCreator.Close` | apps/client/src/chat-delivery-creator.ts:355-362 | aborts and shuts the creator |
| `BuildCache.InvRun` | scripts/rust-build-cache.py:44-209 | locks, processes and directories agree in every interleaving of builders, cleaners, children, crashes and clock jumps |
| `BuildCacheSafety.TakenOnlyWhenIdleAndFree` | scripts/rust-build-cache.py:100-126 | in every reachable state nothing is taken from a directory except by the builder that is staging it, or by a cleaner that alone holds its lock and started 24 hours or more after its last recorded use |
| `BuildCacheSafety.StagingIsPrivate` | scripts/rust-build-cache.py:55-112 | staging directories lie among the directories a cleaner scans, and because of its name filter only the builder that stages one ever changes it; once that builder is gone, nobody does |
| `BuildCacheSafety.BucketUsableWhileBuilding` | scripts/rust-build-cache.py:163-209 | a bucket has its record and build directory from the moment its builder is ready until the builder and its child have let go, even over a crash of the builder |
| `BuildCacheSafety.LocksAreExclusive` | scripts/rust-build-cache.py:83-90 | no two processes work on one bucket |
| `BuildCacheSafety.PublishLands` | scripts/rust-build-cache.py:55-72 | a complete staging directory always gets its name and is then usable |
| `BuildCacheSafety.UnownedStays` | scripts/rust-build-cache.py:93-126 | a bucket without a valid record is never adopted, altered or removed |
| `BuildCacheSafety.UnownedExactly` | scripts/rust-build-cache.py:113-126 | one step leaves a bucket without a valid record if and only if it cuts its removal short after the record has gone |
| `BuildCacheSafety.RecordLostExactly` | scripts/rust-build-cache.py:44-209 | over every run: a bucket that was in order, or not there, is without a valid record and not being removed if and only if there was such a cut |
| `BuildCacheSafety.RecordsStayValid` | scripts/rust-build-cache.py:44-209 | a bucket whose lock is free has a valid record if and only if there was no such cut |
| `BuildCacheSafety.CutRemovalIsForGood` | scripts/rust-build-cache.py:55-62 | after such a cut the bucket never changes again and every later builder of the key is refused |
| `BuildCacheTimes.EarlyRemovalExactly` | scripts/rust-build-cache.py:100-126 | a bucket that lies there can be removed less than 24 hours after work on it ended, without being used again, if and only if its record is older than that work |
| `BuildCacheTimes.EarlyRemovalInTime` | scripts/rust-build-cache.py:100-126 | with a clock that does not go back this happens if and only if, moreover, the 24 hours are not over yet or a cleaner under way started after the recorded use had expired and before they were over |
| `BuildCacheTimes.OutworkedExactly` | scripts/rust-build-cache.py:188-204 | with a clock that does not go back the record is older than the last work if and only if it was written before that work ended, at another instant |
| `BuildCacheTimes.RecordedUseIsRespected` | scripts/rust-build-cache.py:188-204 | so a bucket whose last use was recorded after its work had ended is never removed within 24 hours of it |
| `BuildCacheTimes.SilentBuilderRemovesItsBucket` | scripts/rust-build-cache.py:199-206 | a builder that fails to record a use of a day or more removes, in its own cleanup, the bucket it has just used |
| `BuildCacheTimes.JustUsedBucketIsRemoved` | scripts/rust-build-cache.py:163-209 | and comes to do so from every reachable state in which its key has no bucket: it publishes one, works on it for 25 hours and fails to write the record |
| `BuildCache.KeyIsBucketName` | scripts/rust-build-cache.py:106-160 | a SHA-256 digest in hexadecimal is a bucket name: what builders make, cleaners look at |
| `BuildCacheBuilders.InspectExactly` | scripts/rust-build-cache.py:54-72 | a builder with the lock is refused if and only if its bucket is there without a valid record; it takes over a bucket with one and stages a new one if there is none |
| `BuildCacheBuilders.BucketIsReused` | scripts/rust-build-cache.py:54-62 | from every reachable state a builder with the lock of a bucket with a valid record gets it, usable and with its own time recorded, whatever others do between its steps |
| `BuildCacheBuilders.BucketIsMade` | scripts/rust-build-cache.py:63-72 | and one whose key has no bucket makes it, whatever others do between its steps, and leaves no staging directory |
| `BuildCacheBuilders.ForeignRun` | scripts/rust-build-cache.py:84-126 | no run of other processes moves a process, or touches the bucket it has locked or the directory it is staging |
| `BuildCacheBuilders.ValidExactly` | scripts/rust-build-cache.py:93-97 | a record is valid if and only if it is one that a builder of the project writes for the entry, with any time that is not negative |
| `BuildCacheBuilders.UseIsRecorded` | scripts/rust-build-cache.py:197-204 | the end of the work is recorded in a usable bucket, and then the lock is let go of |
| `BuildCacheBuilders.FailureCleansUp` | scripts/rust-build-cache.py:63-72 | a builder that fails while preparing lets go of its lock and removes its staging directory, and nothing else |
| `BuildCacheBuilders.LitterOnlyByCrash` | scripts/rust-build-cache.py:63-72 | in every run a new directory that is no bucket is being staged by a builder, or was left by one that crashed over it |
| `BuildCacheBuilders.CheckExactly` | scripts/rust-build-cache.py:117-126 | a cleaner with the lock goes on to remove the bucket if and only if its record is valid and at least 24 hours older than the cleaner's start; otherwise it lets go of the lock |
| `BuildCacheBuilders.RemovalCompletes` | scripts/rust-build-cache.py:119-126 | a removal that is not cut short takes the whole bucket and lets go of the lock |
| `BuildCacheBuilders.EmptyWhenGone` | scripts/rust-build-cache.py:119-121 | a bucket goes only after its record and its build directory |
| `DiffPreview.RoundTrip` | apps/client/src/diff-preview.ts:19-38 | for every printed edit script (any files, hunks and texts): the lines read are the lines printed with their kinds, and the old and new lines found are those of the script with consecutive numbers from each hunk start |
| `DiffPreview.DiffLines` | apps/client/src/diff-preview.ts:19-38 | the loop over two counters computes the reading by recursion over the lines |
| `DiffPreview.ReadLine` | apps/client/src/diff-preview.ts:24-36 | one line: its kind, its numbers and the next counters |
| `DiffPreview.HeaderPrinted` | apps/client/src/diff-preview.ts:25-28 | a printed hunk header is read back as its two start lines |
| `DiffPreview.OpRead` | apps/client/src/diff-preview.ts:31-35 | an operation inside a hunk is read as what it is, whatever its text looks like |
| `DiffPreview.ReadDecimal` | apps/client/src/diff-preview.ts:25-27 | printed decimal numbers are read back |
| `DiffPreview.SplitText` | apps/client/src/diff-preview.ts:22-23 | joining lines and splitting them again gives the lines |
| `DiffPreview.ChangedRange` | apps/client/src/diff-preview.ts:10-17 | the two lines agree before the range and after it, and the range cannot be shortened from either end |
| `DeliveryListSpec.InvRun` | apps/client/src/home-dashboard-view-model.ts:101-179 | rebuilds run one after the other in the order scheduled; a running one has read a chain of distinct cursors and collected the first occurrences of what it read |
| `DeliveryListSpec.OneRebuildRuns` | apps/client/src/home-dashboard-view-model.ts:166-179 | at most one rebuild runs at a time |
| `DeliveryListSpec.ReadyIsComplete` | apps/client/src/home-dashboard-view-model.ts:101-164 | `ready` shows all pages of the rebuild scheduled last, which is complete, in order and without repetition, and its generation is the list's unless that is closed; nothing shown ever repeats an id |
| `DeliveryListSpec.SupersededIsSilent` | apps/client/src/home-dashboard-view-model.ts:162-164 | a superseded rebuild changes nothing on show |
| `DeliveryListSpec.ListIsExact` | apps/client/src/home-dashboard-view-model.ts:96-178 | in every run an open list is decided by the rebuild scheduled last and by what was shown then: ready exactly if that rebuild is complete, an error exactly if it failed; a refresh that fails leaves the list as it was |
| `DeliveryListSpec.ScheduledBy` | apps/client/src/home-dashboard-view-model.ts:166-199 | a rebuild is a first load exactly if a start scheduled it |
| `DeliveryListSpec.PageDecidesExactly` | apps/client/src/home-dashboard-view-model.ts:101-160 | a page ends its rebuild if it is the last, fails it exactly if it hands out no cursor, one handed out before, or is the tenth, and otherwise the rebuild reads on from its cursor |
| `DeliveryListSpec.ClosedIsFinal` | apps/client/src/home-dashboard-view-model.ts:200-205 | after the close the list does not change |
| `DeliveryListSpec.DedupFirsts` | apps/client/src/home-dashboard-view-model.ts:135-139 | collecting keeps exactly the first occurrence of each id |
| `DeliveryListSpec.DedupKeepsOrder` | apps/client/src/home-dashboard-view-model.ts:135-139 | in the order of those first occurrences |
| `DeliveryListSpec.DedupIncremental` | apps/client/src/home-dashboard-view-model.ts:135-139 | collecting page by page is collecting everything at once |
| `DeliveryListObject.HomeDeliveryList.constructor` | apps/client/src/home-dashboard-view-model.ts:74-82 | an empty list, loading |
| `DeliveryListObject.HomeDeliveryList.ScheduleRebuild` | apps/client/src/home-dashboard-view-model.ts:166-179 | takes a new generation and the status |
| `DeliveryListObject.HomeDeliveryList.FailLoad` | apps/client/src/home-dashboard-view-model.ts:96-99 | shows the error, and the partial list on a first load |
| `DeliveryListObject.HomeDeliveryList.Collect` | apps/client/src/home-dashboard-view-model.ts:135-139 | the loop with the set of ids seen computes Dedup |
| `DeliveryListObject.HomeDeliveryList.ApplyPage` | apps/client/src/home-dashboard-view-model.ts:129-160 | one page: silent when superseded, else finished, failed or continued at an unread cursor within ten pages |
| `DeliveryListObject.HomeDeliveryList.Close` | apps/client/src/home-dashboard-view-model.ts:200-205 | bumps the generation |
| `MessageStore.AssertMessages` | apps/client/src/chat-view-model.ts:361-386 | accepts exactly the pages whose messages are of the session with distinct ids and sequences, and puts them in strictly ascending order |
| `MessageStore.CheckMessages` | apps/client/src/chat-view-model.ts:361-386 | the pass over two sets finds the first fault |
| `MessageStore.MergeMessages` | apps/client/src/chat-view-model.ts:388-396 | computes the upsert of the page into the list, checked again |
| `MessageStore.Receive` | apps/client/src/chat-view-model.ts:1184-1196 | a page or an appended message is checked by itself before it is merged; a fault in either check leaves the list as it was |
| `MessageStore.StoreStaysOrdered` | apps/client/src/chat-view-model.ts:1184-1196 | through every run of pages, appended messages and resets the list is strictly ordered, without duplicates and of one session |
| `MessageStore.MergeExact` | apps/client/src/chat-view-model.ts:388-396 | a checked page merges if and only if it shares no sequence with a message it does not replace; then it replaces those with its ids and the rest stays |
| `MessageStore.StoreShowsLatest` | apps/client/src/chat-view-model.ts:1184-1196 | over every run whose ids and sequences determine each other no merge fails, and the list is the last delivered message of each id, from exactly the pages that passed the check since the list was last replaced |
| `MessageStore.ArrivalOrderIsIrrelevant` | apps/client/src/chat-view-model.ts:1822-1850 | two such runs that delivered the same ids and sequences, in whatever pages and order, show them in the same places, and show the same list if their last messages are the same |
| `MessageStore.MergeIsIdempotent` | apps/client/src/chat-view-model.ts:388-396 | receiving a page twice is receiving it once, for any page |
| `MessageStore.AscendingIsUnique` | apps/client/src/chat-view-model.ts:383-385 | a set of messages has one ascending order |
| `ModelRoutesSpec.SelectedIsOffered` | apps/client/src/chat-view-model.ts:564-592 | in every run a selected route is one of the routes on offer, ready and of the bound client |
| `ModelRoutesSpec.NoSilentSwitch` | apps/client/src/chat-view-model.ts:564-599 | without a choice and without a session route all routes ever shown in a run are one route, by identity and, where its parts hold no NUL, in all parts: a lost one is not replaced |
| `ModelRoutesSpec.IdentityIsInjective` | apps/client/src/chat-view-model.ts:407-409 | routes whose parts hold no NUL have one identity only if they are one route |
| `ModelRoutesSpec.PickedOnce` | apps/client/src/chat-view-model.ts:564-599 | once picked automatically, a route is kept or lost for good |
| `ModelRoutesSpec.FirstOfferSelects` | apps/client/src/chat-view-model.ts:567-579 | with nothing established an offer selects the ready default at the least index; a bound chat without one takes the ready route of its client at the least index; otherwise nothing is selected or established |
| `ModelRoutesSpec.WantedIsSelectedExactly` | apps/client/src/chat-view-model.ts:580-592 | the session route or the established one is selected exactly if the first route with its identity is ready, and is otherwise given up for that route's reason or the offer's |
| `ModelRoutesSpec.LostIsNotReplaced` | apps/client/src/chat-view-model.ts:580 | what was established and lost is not replaced by an offer |
| `ModelRoutesSpec.ChoiceIsTakenExactly` | apps/client/src/chat-view-model.ts:1746-1776 | a choice is taken if and only if the chat is ready and a ready route of the client has its identity; otherwise nothing happens |
| `ModelRoutesSpec.LossIsForGood` | apps/client/src/chat-view-model.ts:594-599 | after every run a chat that loses its routes selects none again until the user chooses or the session has one |
| `ModelRoutesSpec.EmptyingKeepsTheChoice` | apps/client/src/chat-view-model.ts:886-912 | emptying or refreshing the view keeps what is wanted |
| `ModelRoutesSpec.ReadyTellsLast` | apps/client/src/chat-view-model.ts:860-912 | in every run the chat is ready exactly if the last event that says so says it is |
| `ModelRoutesSpec.ClosedIsEmpty` | apps/client/src/chat-view-model.ts:1895-1915 | a closed chat holds no route, no offer and no issue, for good |
| `ModelRoutesObject.RouteSelection.constructor` | apps/client/src/chat-view-model.ts:544-546 | no selection |
| `ModelRoutesObject.RouteSelection.Reconcile` | apps/client/src/chat-view-model.ts:564-592 | picks a default once, else keeps the named route if ready, else reports the reason |
| `ModelRoutesObject.RouteSelection.PublishSnapshot` | apps/client/src/chat-view-model.ts:861-890 | a session route takes precedence, then reconciles |
| `ModelRoutesObject.RouteSelection.SelectRoute` | apps/client/src/chat-view-model.ts:1746-1776 | takes a ready offered route, and only while ready |
| `ModelRoutesObject.RouteSelection.ClearSelection` | apps/client/src/chat-view-model.ts:594-599 | remembers that a route was established |
| `ModelRoutesObject.RouteSelection.LoseRoutes` | apps/client/src/chat-view-model.ts:1111-1118 | a failed reload shows no route and no offer |
| `ArtifactDownload.DownloadArtifact` | apps/client/src/chat-view-model.ts:1792-1821 | ends after at most 256 requests with exactly the declared size, one whole chunk after the other, all replies of one artifact, digest and size; or at the first reply that breaks this |
| `ArtifactDownload.ServedIsDownloaded` | apps/client/src/chat-view-model.ts:1792-1821 | from a server that serves a file of an accepted size, what arrives is the file |
| `ArtifactDownload.DownloadedInChunks` | apps/client/src/chat-view-model.ts:1800-1817 | each part of a download came from a reply that names the artifact and its digest, at its offset of 256 KiB steps, whole, within 64 MiB |
| `ArtifactDownload.AcceptedAt` | apps/client/src/chat-view-model.ts:1807-1818 | each accepted chunk starts where the one before ended and is whole unless it is the last |
| `DecisionCards.HomeDecisionCards` | apps/client/src/home-dashboard-view-model.ts:448-490 | the single pass with two index maps builds the cards of the two-pass reference |
| `DecisionCards.AddItem` | apps/client/src/home-dashboard-view-model.ts:454-488 | one turn of the pass: a card of its own, the first of its delivery, or one more of a delivery |
| `DecisionCards.CardsAreExact` | apps/client/src/home-dashboard-view-model.ts:448-490 | the counts of the cards sum up to the number of items, and a delivery has exactly one card if and only if it has an attention item |
| `DecisionCards.CardsStandForItems` | apps/client/src/home-dashboard-view-model.ts:454-488 | a delivery card counts all its attention items, shows one that none of them precedes, and is disabled exactly when all of them are, which is exactly when the shown one is |
| `DecisionCards.CardsAreOrdered` | apps/client/src/home-dashboard-view-model.ts:454-489 | the cards come in the order of their items |
| `DecisionCards.OrderedSorts` | apps/client/src/attention-center-view-model.ts:241-255 | ordering is a permutation sorted by urgency, expiry, kind and id, and keeps the order of items that tie |
| `DecisionCards.LeaderDecides` | apps/client/src/home-dashboard-view-model.ts:479-486 | in order, the first item of a delivery is disabled only when all of them are |
| `DecisionCards.OrderedInPlace` | apps/client/src/attention-center-view-model.ts:241-255 | blocking items come first, then pending, expired and unbound ones; among equals by expiry with none last, then approvals, attention items and inputs, then by id |
| `DecisionCards.CardsByKind` | apps/client/src/home-dashboard-view-model.ts:454-488 | a card counts items exactly if it shows an attention item of a delivery; any other is disabled exactly if its item has expired or lost its binding |
| `DecisionCards.OthersHaveTheirCards` | apps/client/src/home-dashboard-view-model.ts:454-462 | every item that is no attention item of a delivery has a card of its own |
| `StableSort.SortIsStable` | apps/client/src/home-dashboard-view-model.ts:375-426 | sorting by any comparator that is an order keeps the order of the elements that tie |
| `HomeSections.Deal` | apps/client/src/home-dashboard-view-model.ts:554-563 | the loop deals each card out to the section of its status |
| `HomeSections.Dashboard` | apps/client/src/home-dashboard-view-model.ts:551-580 | each section of the page is the sorted filter of all cards and is shown as a prefix of the given length |
| `HomeSections.FilterTwice` | apps/client/src/home-dashboard-view-model.ts:375-381 | the filter inside each section is idle after the loop |
| `HomeSections.SectionExact` | apps/client/src/home-dashboard-view-model.ts:375-426 | each section is sorted by its own order (failed: failed tasks, blocked tasks, recency; others: recency), keeps the order of cards that tie and holds a card if and only if it is the section of the card |
| `HomeSections.SectionsPartition` | apps/client/src/home-dashboard-view-model.ts:551-570 | the multisets of the seven sections sum up to the multiset of the cards |
| `HomeSections.WaitingExactly` | apps/client/src/home-dashboard-view-model.ts:338-368 | the waiting section holds exactly the cards that wait for a human with nothing open, failed or blocked |
| `HomeSections.SectionsByStatus` | apps/client/src/home-dashboard-view-model.ts:338-368 | the other six sections by status and tasks: failed takes all with failed or blocked tasks, waiting dependencies and open attention |
| `HomeSections.SectionInPlace` | apps/client/src/home-dashboard-view-model.ts:370-426 | the newest card comes first; in the failed section more failed tasks, then more blocked ones, then the newer card |
| `OccupancySpec.OneCallWhileSubmitting` | apps/client/src/client-occupancy-view-model.ts:197-229 | in every run a device has one call under way exactly while it is submitting, and it carries the submitted action |
| `OccupancySpec.InvRun` | apps/client/src/client-occupancy-view-model.ts:157-302 | calls under way match the submitting devices, and what awaits confirmation applies to the device as listed now |
| `OccupancySpec.DangerIsConfirmed` | apps/client/src/client-occupancy-view-model.ts:254-281 | in every run a call to cancel, force or drain answers a confirmation, after a request for that action on a device it applied to, the last one taken up, with the device engaged in that action at every moment between |
| `OccupancySpec.CallsMade` | apps/client/src/client-occupancy-view-model.ts:197-220 | a step makes at most one call, never a second one for a device, and drains exactly when the listed device has work |
| `OccupancySpec.EngagedWasOpened` | apps/client/src/client-occupancy-view-model.ts:231-287 | a device is engaged in an action only since the last request taken up, which asked for it |
| `OccupancySpec.DrainWasAskedExactly` | apps/client/src/client-occupancy-view-model.ts:254-281 | in every run a call that drains is a confirmed release, and since the last request taken up the user was asked for confirmation if and only if the device had work at that request |
| `OccupancySpec.UnlistedExactly` | apps/client/src/client-occupancy-view-model.ts:164-175 | in every run a failed action does not apply to its device if and only if it did not when it failed and no device list was announced since |
| `OccupancySpec.ConfirmedCallApplies` | apps/client/src/client-occupancy-view-model.ts:271-281 | what a confirmation submits applies to the device as listed, unless it is a retry: then if and only if it applied when it failed or a list was announced since |
| `OccupancySpec.RetryGoesThrough` | apps/client/src/client-occupancy-view-model.ts:271-281 | after every run with a call under way: if the devices change, the call fails and the user confirms, it is made again whatever has become of its device, and drains if the device has work now |
| `OccupancySpec.RequestExactly` | apps/client/src/client-occupancy-view-model.ts:231-270 | after every run a request is taken up if and only if the device is in the state it is for and has no call under way: claims and releases without work are called for at once, all else is asked first |
| `OccupancySpec.DismissExactly` | apps/client/src/client-occupancy-view-model.ts:282-287 | a dismissal sets a question or a failure aside, and nothing else |
| `OccupancySpec.ClosedIsFinal` | apps/client/src/client-occupancy-view-model.ts:296-302 | after the close no interaction is left and no call is made |
| `OccupancyObject.ClientOccupancyViewModel.constructor` | apps/client/src/client-occupancy-view-model.ts:139-147 | no interactions |
| `OccupancyObject.ClientOccupancyViewModel.SetInteraction` | apps/client/src/client-occupancy-view-model.ts:157-162 | refines Put |
| `OccupancyObject.ClientOccupancyViewModel.PruneStaleInteractions` | apps/client/src/client-occupancy-view-model.ts:164-175 | the loop over all interactions resets exactly the stale ones |
| `OccupancyObject.ClientOccupancyViewModel.Submit` | apps/client/src/client-occupancy-view-model.ts:197-220 | up to the call: refused without a port, else submitting with one new call |
| `OccupancyObject.ClientOccupancyViewModel.RequestAction` | apps/client/src/client-occupancy-view-model.ts:231-270 | the four request operations |
| `OccupancyObject.ClientOccupancyViewModel.ConfirmPending` | apps/client/src/client-occupancy-view-model.ts:271-281 | submits what is pending |
| `OccupancyObject.ClientOccupancyViewModel.DismissPending` | apps/client/src/client-occupancy-view-model.ts:282-287 | back to rest |
| `OccupancyObject.ClientOccupancyViewModel.CallSettles` | apps/client/src/client-occupancy-view-model.ts:221-227 | from the reply on |
| `OccupancyObject.ClientOccupancyViewModel.CloseViewModel` | apps/client/src/client-occupancy-view-model.ts:296-302 | forgets all interactions |
| `PreviewHistorySpec.StacksAreTheTimeline` | apps/client/src/candidate-run-preview-view-model.ts:853-913 | in every run the back and forward stacks are a timeline with a cursor; a visit cuts off what lies ahead |
| `PreviewHistorySpec.ButtonsAreExact` | apps/client/src/candidate-run-preview-view-model.ts:868-913 | in every run each button is enabled exactly when the cursor can move that way |
| `PreviewHistorySpec.TimelineIsClean` | apps/client/src/candidate-run-preview-view-model.ts:853-876 | in every run each address in the timeline passes the check, and no two neighbours are the same |
| `PreviewHistorySpec.SafePathHolds` | apps/client/src/candidate-run-preview-view-model.ts:383-395 | a path that passes has no backslash and one slash at its start, and no piece between slashes before its query decodes to a dot segment, to a control character, or not at all |
| `PreviewHistorySpec.PathPartExact` | apps/client/src/candidate-run-preview-view-model.ts:388-388 | the part that is checked ends at the first question mark or number sign |
| `PreviewHistorySpec.ThereAndBack` | apps/client/src/candidate-run-preview-view-model.ts:886-913 | back then forward, and forward then back, restore the place and both stacks |
| `PreviewHistorySpec.SafeExactly` | apps/client/src/candidate-run-preview-view-model.ts:383-395 | a path is safe if and only if it starts with one slash, has at most 4096 characters and no backslash, and each piece before query and fragment decodes to no dot segment and no control character |
| `PreviewHistorySpec.NoticeTellsLast` | apps/client/src/candidate-run-preview-view-model.ts:853-913 | in every run the notice is shown exactly if a path was refused since the last move or refresh |
| `PreviewHistoryObject.PreviewNavigation.constructor` | apps/client/src/candidate-run-preview-view-model.ts:295-300 | at the start page with empty stacks |
| `PreviewHistoryObject.PreviewNavigation.NavigateTo` | apps/client/src/candidate-run-preview-view-model.ts:853-876 | refuses an unsafe path, ignores the current one, else pushes and cuts |
| `PreviewHistoryObject.PreviewNavigation.RefreshPage` | apps/client/src/candidate-run-preview-view-model.ts:877-885 | clears the notice |
| `PreviewHistoryObject.PreviewNavigation.Back` | apps/client/src/candidate-run-preview-view-model.ts:886-899 | moves one entry across |
| `PreviewHistoryObject.PreviewNavigation.Forward` | apps/client/src/candidate-run-preview-view-model.ts:900-913 | moves one entry back |
| `RepositoriesSpec.NewestCallIsShown` | apps/client/src/repositories-view-model.ts:83-112 | in every run: while loading, the newest call is for the device shown and under way; once answered, the page shows exactly that answer |
| `RepositoriesSpec.ListBelongsToDevice` | apps/client/src/repositories-view-model.ts:83-112 | a list on show was answered for the device on show, in whatever order replies came |
| `RepositoriesSpec.LateReplyIsSilent` | apps/client/src/repositories-view-model.ts:100-111 | a reply of an older request, or after closing, changes nothing on show |
| `RepositoriesSpec.AsksExactly` | apps/client/src/repositories-view-model.ts:83-128 | a call is made exactly for a device to show or to refresh, unless it is being loaded already or the model is closed |
| `RepositoriesSpec.ShownIsExact` | apps/client/src/repositories-view-model.ts:83-112 | in every run what is shown is decided by the newest call and by what was shown when it was made: another device starts empty, the same one keeps its list until it is answered and also when that fails |
| `RepositoriesSpec.ClosedIsFinal` | apps/client/src/repositories-view-model.ts:129-134 | after the close nothing on show changes and nothing is asked for |
| `RepositoriesSpec.InvRun` | apps/client/src/repositories-view-model.ts:83-134 | epochs ascend and only the newest call decides what is shown |
| `RepositoriesObject.RepositoriesViewModel.constructor` | apps/client/src/repositories-view-model.ts:69-76 | nothing loaded |
| `RepositoriesObject.RepositoriesViewModel.Show` | apps/client/src/repositories-view-model.ts:83-101 | up to the call: a new epoch, and loading when the device is new |
| `RepositoriesObject.RepositoriesViewModel.RefreshDevice` | apps/client/src/repositories-view-model.ts:125-128 | shows the current device again |
| `RepositoriesObject.RepositoriesViewModel.ApplyReply` | apps/client/src/repositories-view-model.ts:102-111 | only the newest epoch is shown; a failure keeps the list of the same device |
| `RepositoriesObject.RepositoriesViewModel.CloseViewModel` | apps/client/src/repositories-view-model.ts:129-134 | no later reply counts |
| `Knowledge.TombstoneStays` | apps/client/src/community-knowledge-catalog.ts:43-105 | no run of operations revives a tombstone, and an erased one stays erased |
| `Knowledge.BecomesConfirmed` | apps/client/src/community-knowledge-catalog.ts:43-84 | an operation makes an entry confirmed if and only if it confirms an open entry or upserts it as confirmed over a live entry of the same version |
| `Knowledge.ContextWasConfirmed` | apps/client/src/community-knowledge-catalog.ts:43-84 | from an empty catalogue, what is confirmed was made so by such an event, in the version it still has |
| `Knowledge.ContextEntries` | apps/client/src/community-knowledge-catalog.ts:107-135 | the loop selects exactly the readable, confirmed entries whose expiry, if it is a date, has not come |
| `Knowledge.RestoreBackup` | apps/client/src/community-knowledge-catalog.ts:137-153 | reads open if and only if every expected deletion is among those handed in; those entries are then erased and nothing else has changed |
| `Knowledge.DeletionSurvivesRestore` | apps/client/src/community-knowledge-catalog.ts:137-153 | a source deleted after the restore point stays out of every context through every later run if and only if the backup knew it |
| `Knowledge.SourcesLiveApart` | apps/client/src/community-knowledge-catalog.ts:43-105 | in every run each source lives by the operations on it alone: an update replaces a live entry, claims of confirmation are suggestions when new and reconfirmed on another version, expired, archived and revoked entries cannot be confirmed |
| `Knowledge.DeletionErases` | apps/client/src/community-knowledge-catalog.ts:86-105 | a deleted source keeps no title, body, rule or expiry through every later run |
| `Knowledge.ContextExactly` | apps/client/src/community-knowledge-catalog.ts:107-135 | a context holds exactly the confirmed entries that are the caller's own or of one of the caller's repositories, before their expiry |

## Left out

- Rendering, DOM code, texts, layout, routing and accessibility.
- The Rust crates, the server and the wire codecs; a server appears only as what the client promises itself of it.
- Publishing to listeners: a view model's state is modelled, not when and how often its subscribers are told, and no subscriber calls back into the model.
- `resolveKnowledgeRule`, and the order of catalogue entries in a context.
- Symbolic links, hashing, signals and the names of temporary files of the build cache.
- DraftObject.EditableDraft.Synchronize: the order in which dirty fields were added is not modelled, the dirty fields are a set; a snapshot's keys are distinct, as the keys of an object are.
- ClarificationSpec.OneKeyOneRequest: request ids come from a counter, and one revision of a delivery has one content.
- SagaSpec.AtMostOneEffect: the server is assumed to apply a request id once; a reply to an aborted call is never delivered.
- DiffPreview.DiffLines: line numbers are unbounded, where the original's are floating point numbers beyond 2^53.
- DiffPreview.RoundTrip: each file of a printed diff starts with its `diff` line, and header lines do not look like hunk headers.
- DeliveryListObject.HomeDeliveryList.ApplyPage: the list shown during a first load and the list being collected are two values, where the original shares one array.
- DecisionCards.OrderedSorts: ids are compared by a key that stands for the locale's order, and every expiry is a number.
- OccupancySpec.InvRun: the device list is a map from client ids, which is what looking up the first device of an id sees.
- ClarificationObject.ClarificationViewModel.Submit: the verdict of the form's validation is a parameter, and criteria are one field's text.
- SagaObject.DeliveryCreator.Create: the input is taken as trimmed and de-duplicated.
- HomeSections.SectionExact: update times and ids are compared by keys that stand for the locale's order.
- Knowledge.ContextEntries: the entries are a set, without the order of the catalogue.
- PreviewHistorySpec.TimelineIsClean: percent-decoding of a segment is a parameter that leaves the empty segment as it is, and lengths count characters.
- BuildCacheTimes.EarlyRemovalExactly: work on a bucket ends when its builder's wait returns or the builder crashes at work, and when its child lets go of the lock.
- MessageStore.StoreShowsLatest: which message of an id comes last is decided by delivery, as in the original; the model takes ids and sequences to determine each other over the run.
