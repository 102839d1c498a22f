# Verified model of the Hermes operator

A Dafny model of the parts of the Hermes Kubernetes operator that carry state across
reconciles or recurse over data, with proofs about all inputs and all runs. Check everything
with `dafny verify dfyconfig.toml`.

## What is modelled

| area | files | form |
|---|---|---|
| auto-update rollouts with the pre-update backup gate | `AutoUpdate`, `AutoUpdateReconcilers`, `AutoUpdateRuns`, `AutoUpdateGuarantees`, `AutoUpdateBackups`, `AutoUpdateImages`, `AutoUpdatePolls`, `AutoUpdateVerdicts`, `AutoUpdateCounterexamples` | a class whose methods assign the status and the stored objects, each proved equal to a phase function; runs over those functions |
| the backup taken before an instance is deleted | `FinalBackup`, `FinalBackupRuns` | the same |
| one-shot restore and migration under the admission webhook | `Admission`, `OneShots` | the same, with the validator's accept and reject conditions |
| self-configuration requests: policy gates, writes, report | `SelfConfigPolicy`, `SelfConfig`, `SelfConfigRuns`, `SelfConfigCounterexamples` | the same, with the tree walk as a recursive method |
| configuration documents | `ConfigTree` | loops over maps proved equal to a tree algebra |
| tag selection | `SemVer`, `Oci`, `Orders` | the loop and the sort, specified by the precedence order of section 11 of Semantic Versioning 2.0.0 |
| workspace ConfigMap, shared labels, Job verdicts | `WorkspacePath`, `Labels`, `Jobs` (`Maps`, `Clock` and `Wrappers` hold what several areas share) | loops and recursive functions |

A **run** is any finite sequence of moves. For auto-update a move is an instance pass (with its
own registry answer and its own choice of which API operations fail), the passing of time, an
edit of the spec or of the annotation, the instance controller's rewriting of the pod template
from the spec, any other change of the StatefulSet, of the events or of the Job's conditions, or
the removal of the Job. Every move is possible in every state, so a
statement about all runs covers crashes at any point (all later operations of the pass fail),
and toggling. A run is *controlled* when every pass comes right after that rewriting, as it does
in the controller (internal/controller/hermesinstance_controller.go:148-202).

The persisted times of Kubernetes have second precision. The clock is in nanoseconds and each
status write truncates, so bounds such as "five minutes after the second in which the rollout
started" are exact.

### How the auto-update results fit together

The class `AutoUpdateReconciler` is proved, method by method, to do what the functions of `AutoUpdate`
say. `PassFollows` shows that one pass, whatever fails in it, leaves the persisted record alone
or applies exactly one *due* event. `RecordIsReplay` lifts this to runs: the record is the
replay of the log of started, confirmed and rolled-back rollouts that an observer of the
stored status sees, and every event was permitted when it happened. The remaining trace
properties are then proved about such disciplined logs. `RolloutVerdict` and `StartVerdict` give
for one pass, and for every set of failing operations, exactly which event it shows, and `PassSets` exactly what it
makes of the StatefulSet. `AutoUpdateVerdicts` says the same over the stored fields alone, with
every constant spelled out.

## Where the code and its documentation differ

The model follows the code in each case.

- `docs/autoupdate.md:94` says that disabling auto-update lets a rollout in flight finish its
  window. The code returns before it looks at the rollout, so the record is frozen
  (`DisabledFreezes`).
- `docs/autoupdate.md:64` says that `currentTag` reports the tag that runs. Every instance pass
  writes the image of the spec before it comes to auto-update. After a pass the current tag runs
  exactly when the pass brought no other image in and either put that tag's image back or left
  the spec's image, which is that of the tag (`CurrentTagRuns`, for every set of failing
  operations). A confirmed tag runs exactly when the spec asks for it (`ConfirmedTagRuns`); for
  every other tag there is a run without failures that confirms it although it does not run
  (`OverwrittenImageIsConfirmed`), and a start that dies before its record leaves a current tag
  that does not run although the spec asks for it (`DyingStartLosesCurrentTag`).
- `docs/autoupdate.md:71` promises a floor of fifteen minutes between fetches of the tag list. It
  holds after every poll whose time was stored (`PollsAreApart`), and `PollIsStored` says when
  that is. The pass that creates the pre-update Job counts as a poll too, so the requeue after ten
  seconds that it asks for is in vain: the rollout starts a whole poll interval later at the
  earliest, however soon the Job is Complete (`BackupCostsAnInterval`).
- `docs/autoupdate.md:88` says that `lastFailedTag` is cleared when a new tag becomes available,
  and line 77 that the same tag is not retried. The code only overwrites the field at the next
  rollback. A failed tag is not started again before a different one has failed
  (`RetryNeedsAnotherFailure`); after that it can be (`FailedTagIsRetried`), exactly under the
  conditions of `StartVerdict`.
- `docs/autoupdate.md:89` says that a failed pre-update backup is retried indefinitely. While
  the failed Job is stored it is neither replaced nor created anew, and no rollout starts
  (`PassKeepsJob`, `FailedJobBlocks`); a new Job is created only once it is gone
  (`JobCreationVerdict`).
- The comment on `mergeGatewayFragments` says it deep-merges. It replaces whole entries below
  `gateways`, so a key of the user is lost (`FragmentDropsUserKey`); `FragmentsReplaceDeeply` gives
  the exact condition for the two to agree.
- The comment on `InitialDirsKey` says it collides with no encoded path. It collides with
  exactly one relative path, its own name, and that file is then lost (`ReservedKeyCondition`,
  `ReservedNameIsLost`).
- The comment on `DecodeWorkspacePath` calls it the inverse of the encoder. It is one exactly on
  paths without `__` and `_/` (`RoundTripCondition`).
- A deletion that is overdue is reported as "snapshot not taken" whatever the Job did
  (`DeadlineReportVerdict`), also in a run whose Job completed in time
  (`CompleteBackupReportedMissing`).

Stronger claims that fail, with a run in which they do and the exact condition under which they
hold:

| claim | fails in | holds exactly when |
|---|---|---|
| a confirmed tag is the one that runs | `OverwrittenImageIsConfirmed`, `CrashedRollbackIsConfirmed` | `ConfirmedTagRuns`, `ConfirmationKeepsImage` |
| the current tag is the one that runs | `DyingStartLosesCurrentTag` | `CurrentTagRuns` |
| a rollback leaves the tag it comes from | `EditedTagRollsBackToItself` | `RollbackStaysPut` |
| a rollback restores the image of the spec | `RollbackLosesTag` | `RollbackRestoresSpecImage` |
| a failed tag is not rolled out again | `FailedTagIsRetried` | `StartVerdict`, for the single pass |
| `restoredFrom` names the snapshot that was restored | `LatchRecordsAnEdit` | `RecordNamesRestoredSnapshot`, `RecordIsRightUnlessEdited` |
| a backup reported as not taken was not taken | `CompleteBackupReportedMissing` | `DeadlineReportVerdict` |
| a denied request wrote nothing | `DeniedSkillStays` | `DeniedAfterWrites` |
| an applied file was written | `EmptyFileOnlyReported` | `FilesWithoutContentAreOnlyReported` |
| the stored merge patch is the requested one | `FileReplacesPatch` | `PatchSurvivesFiles` |
| gateway fragments are deep-merged | `FragmentDropsUserKey` | `FragmentsReplaceDeeply` |

## Model

| member | source | states |
|---|---|---|
| `AutoUpdateRuns.RolloutsBoundedByRegistry` | internal/controller/autoupdate.go:48-143 | in every run from an empty status the number of rollouts started is at most the number of stretches of equal registry answers, whatever readiness, failures, crashes, edits and toggles do |
| `AutoUpdateRuns.ConstantAnswerOneRollout` | internal/controller/autoupdate.go:113-142 | if the registry's best tag never changes, at most one rollout is ever started |
| `AutoUpdateRuns.RecordIsReplay` | internal/controller/autoupdate.go:203-347 | in every run the stored record is the replay of the observed log of starts, confirmations and rollbacks; each event was permitted when it happened; target, deadline and the RolloutInFlight reason are set together, the target is never the failed or the current tag, and a non-empty last success is the current tag |
| `AutoUpdateRuns.PassFollows` | internal/controller/autoupdate.go:48-347 | one instance pass, with any set of failing API operations, leaves the record alone or applies exactly the one due event, and keeps the status coherent |
| `AutoUpdateRuns.MoveObserved` | internal/controller/hermesinstance_controller.go:198-210 | of all moves only an instance pass can change the record, and what an observer of two consecutive stored statuses sees is the event that was applied |
| `AutoUpdateRuns.RolloutsAlternate` | internal/controller/autoupdate.go:58-60 | starts and outcomes alternate, an outcome concerns the rollout before it, and two consecutive rollouts never have the same target |
| `AutoUpdateRuns.RetryNeedsAnotherFailure` | internal/controller/autoupdate.go:113-125 | a rolled-back tag is started again only after a different tag was rolled back in between |
| `AutoUpdateRuns.ConfirmedTagIsTheFallback` | internal/controller/autoupdate.go:292-317 | until the next confirmation every rollback returns to the last confirmed tag, which is never the tag being left, and that tag is not rolled out again |
| `AutoUpdateRuns.LastEventDecides` | internal/controller/autoupdate.go:260-317 | a rollout is in flight exactly when the last event is its start, with the deadline five minutes after the second of that start; otherwise the last event fixes the current, success and failed tags |
| `AutoUpdateRuns.AnswersNameTags` | internal/oci/client.go:78-92 | if the empty string is not a version, tag selection never answers with it, as the runs assume |
| `AutoUpdateGuarantees.RolloutVerdict` | internal/controller/autoupdate.go:222-258 | in every run a pass over a rollout in flight shows a confirmation exactly when the pod is ready and the StatefulSet read and a status write work, and a rollback exactly when the pod is not ready, rollback is allowed, enough matching events since its own start or the end of its window are there, and the reads, the image patch and a status write work |
| `AutoUpdateGuarantees.PassVerdict` | internal/controller/autoupdate.go:230-252 | the same for one pass over any coherent status |
| `AutoUpdateVerdicts.ConfirmationVerdict` | internal/controller/autoupdate.go:230-232 | over the fields: a pass over a rollout confirms it exactly when the sub-controller is on, one replica is ready, one is updated, there is a revision, and the read and a status write work |
| `AutoUpdateVerdicts.ConfirmationInRuns` | internal/controller/autoupdate.go:230-232 | the same in every run |
| `AutoUpdateVerdicts.RollbackVerdict` | internal/controller/autoupdate.go:234-252 | over the fields: a pass rolls back exactly when the replica is not so, rollback is not switched off, as many Unhealthy or FailedMount events of the first pod as the threshold says, or three, were last seen in the five minutes before the deadline or later, or the deadline is past, and the operations work; it leads to the last success or the spec's tag |
| `AutoUpdateVerdicts.StartOverFields` | internal/controller/autoupdate.go:58-220 | over the fields: a pass starts a rollout exactly when nothing is in flight, the last check is an interval old, the answer is neither the failed nor the running tag, a wanted backup's first true terminal condition is Complete, and the operations work |
| `AutoUpdateVerdicts.EventImage` | internal/controller/autoupdate.go:176-192 | after a recorded start or rollback the first container's image is the repository, or the default one, a colon and the tag |
| `AutoUpdateVerdicts.TemplateImage` | internal/resources/statefulset.go:348-361 | the image written from the spec: digest, tag or latest, spelled out |
| `AutoUpdateVerdicts.AnnouncementAfterOutcome` | internal/controller/autoupdate.go:275-285 | the annotation is cleared exactly when an outcome was stored by its own phase and the patch works, and otherwise kept |
| `AutoUpdateVerdicts.ConditionAfterOutcome` | internal/controller/autoupdate.go:267-331 | the conditions after a confirmation and after a rollback, with the tag that was left |
| `AutoUpdateVerdicts.ConditionAfterPoll` | internal/controller/autoupdate.go:76-140 | the condition after a poll that starts nothing: unchanged, no match, suppressed, or up to date |
| `AutoUpdateVerdicts.CounterWhileWaiting` | internal/controller/autoupdate.go:234-257 | while a rollout goes on with an unready pod the stored counter is the number of bad signs, and nothing else in the status changes |
| `AutoUpdateVerdicts.RequeueVerdict` | internal/controller/autoupdate.go:48-347 | a call without an error asks to be called again, after ten or fifteen seconds, a minute or an interval, unless auto-update is off or a rollout just ended; a rollout in flight is looked at after fifteen seconds |
| `AutoUpdateVerdicts.WaitingVerdict` | internal/controller/autoupdate.go:157-166 | a minute after the backup failed, ten seconds while it is awaited, one interval when the answer starts nothing |
| `AutoUpdateVerdicts.PolledTagIsHighest` | internal/controller/autoupdate.go:72-93 | the tag of a poll is published in the configured place or the image's repository, is a version in the configured channel or the major line, and none published there ranks higher by section 11 |
| `AutoUpdateVerdicts.CreatedJobKey` | internal/controller/backup.go:245-266 | a Job is created for the recorded key, or for a fresh one that is then recorded |
| `AutoUpdateVerdicts.IntervalVerdict` | internal/controller/autoupdate.go:375-390 | an hour where nothing sensible is configured, and else the permitted interval nearest to the configured one |
| `AutoUpdateGuarantees.ProbeFailuresCountsEachEvent` | internal/controller/autoupdate.go:350-373 | the counter is the cardinality of the set of matching events, so each counts once |
| `AutoUpdateGuarantees.OldFailuresNeverCount` | internal/controller/autoupdate.go:364-369 | events last seen before the second a rollout started never add to its counter |
| `AutoUpdateGuarantees.RolloutsEndInTime` | internal/controller/autoupdate.go:246-252 | if at most d has passed since the last pass able to end an overdue rollout, a rollout still in flight is at most five minutes and d old; able means the few operations that a confirmation or a rollback needs, whichever the pod calls for |
| `AutoUpdateGuarantees.NoAttentivePassAfterDeadline` | internal/controller/autoupdate.go:203-252 | in every run, while a rollout is in flight no pass able to end it has come after its deadline |
| `AutoUpdateGuarantees.PassEnds` | internal/controller/autoupdate.go:222-347 | a pass ends the rollout in flight exactly when it sees an outcome and the operations of that outcome work |
| `AutoUpdateGuarantees.StartVerdict` | internal/controller/autoupdate.go:113-220 | with nothing in flight a pass starts exactly the tag just polled, exactly when it neither failed last nor runs now, the pre-update backup is not asked for or its stored Job is Complete now, and the operations of a start work, the image patch only where the image differs |
| `AutoUpdateBackups.ClosedGateHoldsImage` | internal/controller/autoupdate.go:155-201 | while the pre-update Job is running, missing or failed, no pass moves the target, the image or the announcing annotation, whatever fails |
| `AutoUpdateImages.RecordedEventIsInPlace` | internal/controller/autoupdate.go:184-347 | whatever fails in a pass, a start or a rollback is recorded only after the first container runs the tag it names and no other image changed; a confirmation leaves the pod template alone and gives up the snapshot key, and a rollback keeps it |
| `AutoUpdateImages.ConfirmedTagRuns` | internal/controller/hermesinstance_controller.go:576-599 | in every controlled run, whatever the pods, the users and the API server do, a tag that a move confirms is the first container's image afterwards exactly when the spec has no digest and names that tag, or has no tag and the tag is "latest" |
| `AutoUpdateImages.ConfirmedTagRunsIff` | internal/controller/autoupdate.go:230-232 | the same for one pass over any coherent status, right after the pod template was written from the spec |
| `AutoUpdateImages.ConfirmationKeepsImage` | internal/controller/autoupdate.go:230-290 | without assuming that write: a confirmed tag runs after the pass exactly when it ran before it |
| `AutoUpdateImages.CurrentTagRuns` | internal/controller/autoupdate.go:145-150 | in every controlled run, after each of its passes: a non-empty current tag runs exactly when the pass brought no other image in and either put that tag's image back or left the spec's image, which is that of the tag; all of it decided by the state before the pass and the operations that work |
| `AutoUpdateImages.CurrentTagRunsIff` | internal/controller/autoupdate.go:145-150 | the same for one pass over any coherent status, whatever fails in it |
| `AutoUpdateImages.CurrentTagAfter` | internal/controller/autoupdate.go:260-317 | the current tag that a pass leaves: the target if it confirms, the fallback if it rolls back and records that, else the old one |
| `AutoUpdateImages.TagRunsIff` | internal/controller/autoupdate.go:168-192 | which tag runs after a pass that began with the spec's image: the wanted one if the pass brought it in, the fallback if it put that back, and else the one the spec asks for |
| `AutoUpdateImages.PassSets` | internal/controller/autoupdate.go:152-310 | the exact StatefulSet after any pass over any status, whatever fails in it and whatever it records: patched forward, patched back, or untouched |
| `AutoUpdateImages.SpecImageNamesTag` | internal/resources/statefulset.go:348-361 | the image built from the spec is that of a tag exactly when there is no digest and the spec names the tag, or no tag and it is "latest" |
| `AutoUpdateImages.RollbackRestoresSpecImage` | internal/controller/autoupdate.go:292-309 | a rollback leads to the image of the spec exactly when there is no digest and the last confirmed tag is the one the spec asks for, or nothing was confirmed and the spec has a tag |
| `AutoUpdateBackups.JobMatchesRecordedSnapshot` | internal/controller/backup.go:253-276 | in every run a stored pre-update Job and a recorded snapshot key name the same snapshot, also after a crash between the status write and the Job creation |
| `AutoUpdateBackups.PassKeepsKey` | internal/controller/autoupdate.go:260-266 | a pass keeps Job and record on one key, and drops a recorded key only by confirming a rollout with a ready pod |
| `AutoUpdateBackups.PassKeepsJob` | internal/controller/backup.go:248-285 | no pass replaces, changes or removes a stored pre-update Job, whatever became of it |
| `AutoUpdateBackups.JobCreationVerdict` | internal/controller/backup.go:252-276 | with no Job stored, a pass creates one exactly when nothing is in flight, it wants to roll out a tag, the backup is asked for, and the read, the creation and, for a fresh key, the status write work |
| `AutoUpdateBackups.NoStartWithoutCompleteJob` | internal/controller/autoupdate.go:155-166 | while backups are asked for and no Job is ever Complete, no run starts a rollout, however many Jobs are created, fail, are removed and are created again |
| `AutoUpdateBackups.FailedJobBlocks` | internal/controller/backup.go:278-284 | a failed Job that nobody touches stays as it is for good, and no rollout ever starts |
| `AutoUpdateGuarantees.DisabledFreezes` | internal/controller/autoupdate.go:51-53 | while auto-update is disabled no run changes the record, even with a rollout in flight |
| `AutoUpdateGuarantees.FixedTagRollbacksLeave` | internal/controller/autoupdate.go:292-317 | in every run that never edits the instance's tag, no rollback lands on the tag it leaves |
| `AutoUpdateGuarantees.RollbackStaysPut` | internal/controller/autoupdate.go:292-296 | a rollback lands on the tag it leaves exactly when nothing was ever confirmed and the instance's tag is the target |
| `AutoUpdateCounterexamples.CrashedRollbackIsConfirmed` | internal/controller/autoupdate.go:309-334 | for every tag but the spec's there is a run in which a rollback dies between its image patch and its status write and is then confirmed, while the spec's tag runs |
| `AutoUpdateCounterexamples.OverwrittenImageIsConfirmed` | internal/controller/hermesinstance_controller.go:588-595 | for every tag the spec does not ask for there is a controlled run in which every operation works, the pod becomes ready, the next pass writes the spec's image back and then confirms the tag that no longer runs |
| `AutoUpdateCounterexamples.DyingStartLosesCurrentTag` | internal/controller/autoupdate.go:184-201 | for any two tags there is a controlled run that ends with nothing in flight and a current tag the spec asks for, while the other tag runs, because a start died between its image patch and its record |
| `AutoUpdateCounterexamples.RollbackLosesTag` | internal/controller/autoupdate.go:293-309 | when the spec names no tag, a first rollout that fails ends with an image reference without a tag |
| `AutoUpdateCounterexamples.FailedTagIsRetried` | internal/controller/autoupdate.go:113-125 | for any two tags there is a run in which the first fails, then the second, and then the first is started again |
| `AutoUpdateCounterexamples.EditedTagRollsBackToItself` | internal/controller/autoupdate.go:293-296 | for every tag there is a controlled run in which an edit of the instance's tag during the first rollout makes the rollback land on the tag it leaves |
| `AutoUpdatePolls.PollsAreApart` | internal/controller/autoupdate.go:62-70 | in every run from any coherent status, after a poll whose time was stored the next poll comes no sooner than the interval configured then, less the fraction of a second that storing cuts off, and so never within a quarter of an hour less a second |
| `AutoUpdatePolls.PollIsStored` | internal/controller/autoupdate.go:76-140 | the time of a poll that starts nothing is stored exactly when its own status write or the one at the end of the pass works; after a malformed channel only the latter counts |
| `AutoUpdatePolls.FinalWriteStoresPoll` | internal/controller/hermesinstance_controller.go:206-208 | whatever a poll leads to, the status write at the end of the pass stores its time |
| `AutoUpdatePolls.JobCreationIsStored` | internal/controller/backup.go:252-276 | the pass that creates the pre-update Job stores its check time exactly when it records a fresh key or writes the status at its end |
| `AutoUpdatePolls.BackupCostsAnInterval` | internal/controller/autoupdate.go:157-166 | in every run after the creation of a Job with a fresh key, no rollout starts within one poll interval |
| `AutoUpdatePolls.EarlyPassIsIdle` | internal/controller/autoupdate.go:67-70 | a pass within the interval with nothing in flight changes nothing at all |
| `AutoUpdate.ParsePollInterval` | internal/controller/autoupdate.go:375-390 | the interval is between a quarter of an hour and a week, whatever is configured |
| `AutoUpdateReconcilers.AutoUpdateReconciler.Reconcile` | internal/controller/autoupdate.go:48-143 | the whole sub-controller leaves the stored world, the in-memory status and the requeue that the phase function gives, and a poll it makes is one the registry and the channel allow |
| `AutoUpdateReconcilers.AutoUpdateReconciler.PollRegistry` | internal/controller/autoupdate.go:72-142 | the poll asks for the configured repository and channel, records the check, and suppresses, reports or starts accordingly |
| `AutoUpdateReconcilers.AutoUpdateReconciler.StartRollout` | internal/controller/autoupdate.go:152-220 | the backup gate comes first; then the image, the annotation and the status are written in that order, each failure leaving the earlier writes |
| `AutoUpdateReconcilers.AutoUpdateReconciler.RollForward` | internal/controller/autoupdate.go:168-220 | the part behind the gate, with the missing StatefulSet, the empty pod template and the image that is already there |
| `AutoUpdateReconcilers.AutoUpdateReconciler.DriveRollout` | internal/controller/autoupdate.go:222-258 | a ready pod confirms; otherwise failures are counted and the rollout is rolled back or kept |
| `AutoUpdateReconcilers.AutoUpdateReconciler.DriveUnready` | internal/controller/autoupdate.go:234-258 | the counter is set before the decision, and an event list that fails ends the pass with nothing changed |
| `AutoUpdateReconcilers.AutoUpdateReconciler.ShouldRollBack` | internal/controller/autoupdate.go:240-249 | threshold with default 3, rollback enabled by default, deadline passed strictly |
| `AutoUpdateReconcilers.AutoUpdateReconciler.ConfirmRollout` | internal/controller/autoupdate.go:260-290 | the record of a confirmed rollout, written before the annotation is cleared |
| `AutoUpdateReconcilers.AutoUpdateReconciler.Rollback` | internal/controller/autoupdate.go:292-347 | the image goes back first, then the record of a rolled-back rollout is written, then the annotation is cleared |
| `AutoUpdateReconcilers.AutoUpdateReconciler.Settle` | internal/controller/autoupdate.go:275-285 | the status write and the annotation clean-up that end a rollout |
| `AutoUpdateReconcilers.AutoUpdateReconciler.CountProbeFailures` | internal/controller/autoupdate.go:350-373 | the loop counts the matching events of the instance's pod inside the rollout window |
| `AutoUpdateReconcilers.AutoUpdateReconciler.PatchImage` | internal/controller/autoupdate.go:176-192 | the first container has the tag's image; the other images, the replica counters and everything else in the cluster are as before |
| `AutoUpdateReconcilers.AutoUpdateReconciler.RunOneShot` | internal/controller/backup.go:243-286 | names and stores the snapshot key before the Job is created, reuses a stored key, and opens only for a finished Job that did not fail |
| `AutoUpdateReconcilers.RunInstancePass` | internal/controller/hermesinstance_controller.go:198-210 | the sub-controller's error is dropped and the in-memory status is written once more at the end |
| `FinalBackupRuns.EarlyReleaseMeansComplete` | internal/controller/backup.go:139-239 | in every run with a backup configured and not skipped, an instance let go within thirty minutes of its deletion was let go by a call that saw a Complete final Job and itself released the finalizer |
| `FinalBackupRuns.ReleaseVerdict` | internal/controller/backup.go:146-238 | over the fields: a call releases the finalizer exactly when the finalizer patch works and the backup is skipped, cannot be taken, is more than 1800 seconds overdue, or the stored Job's first true terminal condition is Complete and could be recorded |
| `FinalBackupRuns.FinalizerVerdict` | internal/controller/backup.go:48-61 | before a deletion a reconcile adds the finalizer exactly when backups on delete are asked for and the patch works, never takes it away and changes nothing else |
| `FinalBackupRuns.FinalizerStaysUntilDeletion` | internal/controller/hermesinstance_controller.go:102-135 | in every run, once the finalizer is there a later deletion finds it in place, also if backups on delete are switched off in between |
| `FinalBackupRuns.RecordVerdict` | internal/controller/backup.go:188-238 | inside the window: the created Job's key and recorded name, a failure and a success each with the time of the call, and nothing while the Job runs |
| `FinalBackupRuns.AbandonedVerdict` | internal/controller/backup.go:167-179 | an overdue call records time and reason if the status write works, lets the instance go if the finalizer patch works, and leaves the Job |
| `FinalBackupRuns.SkippedVerdict` | internal/controller/backup.go:146-162 | a backup that is skipped or cannot be taken leaves no trace but the removed finalizer |
| `FinalBackupRuns.DeletionEndsInTime` | internal/controller/backup.go:164-180 | whatever the Job and the status writes do, if a reconcile able to patch the finalizer came at most d ago, an instance still held was asked to go at most thirty minutes and d ago |
| `FinalBackupRuns.HeldNoLongerThanPatchable` | internal/controller/backup.go:167-180 | in every run, while an instance is held no reconcile able to patch the finalizer has come after the grace window |
| `FinalBackupRuns.OneJobPerDeletion` | internal/controller/backup.go:182-209 | in every run the number of final Jobs created is at most one more than the number of Jobs deleted by others: the Job TTL never leads to a second one |
| `FinalBackupRuns.DeletedJobIsRetried` | internal/controller/backup.go:217-220 | that bound is reached: a Job that failed and was deleted inside the window is followed by a second one |
| `FinalBackupRuns.CreationVerdict` | internal/controller/backup.go:182-209 | a call creates the Job exactly when none is stored, a backup is configured and not skipped, the window is open and both operations work; it never replaces one |
| `FinalBackupRuns.OverdueCallIgnoresJob` | internal/controller/backup.go:164-180 | an overdue call does the same whatever Job is stored |
| `FinalBackupRuns.DeadlineReportVerdict` | internal/controller/backup.go:167-175 | a call newly reports the deadline as exceeded exactly when the finalizer is held, a backup is configured and not skipped, the window is over and the status write works; the report is false exactly when the stored Job is Complete on top of that |
| `FinalBackupRuns.CompleteBackupReportedMissing` | internal/controller/backup.go:167-175 | a run whose Job is created and completes, and whose next reconcile after the window lets the instance go and reports the snapshot as not taken |
| `FinalBackupRuns.ReleaseIsFinal` | internal/controller/backup.go:142-144 | once deletion is requested and the finalizer is gone, no run brings it back |
| `FinalBackup.BackupReconciler.HandleDeletion` | internal/controller/backup.go:139-239 | leaves what the decision table says; the caller is told "held" exactly when the finalizer is still there |
| `FinalBackup.BackupReconciler.EnsureFinalizer` | internal/controller/backup.go:48-61 | succeeds exactly when a wanted finalizer is there afterwards, and touches nothing else |
| `FinalBackup.BackupReconciler.RemoveFinalizer` | internal/controller/backup.go:64-74 | succeeds exactly when the finalizer is gone afterwards, and touches nothing else |
| `Jobs.FirstTerminalDecides` | internal/controller/job_utils.go:23-30 | the verdict is k exactly when some condition is the first true terminal one and has kind k |
| `Jobs.SnapshotKeyShape` | internal/controller/s3.go:50-64 | a snapshot key begins with the configured prefix, followed by a slash, and is namespace, name and time without one |
| `Jobs.SnapshotKeysDiffer` | internal/controller/s3.go:50-64 | under one prefix, snapshots of different instances or times never share a key |
| `OneShots.LatchesExcludeEachOther` | internal/webhook/webhook_hermesinstance_validate.go:317-369 | in every run of updates, admitted or refused, and reconciles, restore and migration never both complete, and a closed latch still agrees with the spec |
| `OneShots.LatchedForGood` | internal/resources/restore_init.go:13-22 | once either latch has closed, the latched values and the spec they answer to never change again, and no pod template gets an init container or source volume of either kind |
| `OneShots.LatchesMoveOnce` | internal/controller/restore.go:64-65 | over a whole run the two latches together change exactly once if one is closed at the end, else never |
| `OneShots.RestoreLatchVerdict` | internal/controller/restore.go:60-95 | a pass closes the restore latch exactly when a restore is pending, the first terminated container of the pod that is named init-restore exited with 0, and one of the later status writes works; containers of other names play no part |
| `OneShots.MigrationLatchVerdict` | internal/controller/migration.go:64-111 | the same for the migration latch and init-migrate-from-openclaw |
| `OneShots.TerminatedIsFirst` | internal/controller/restore.go:60-64 | the container the loops act on is the first of its name that has terminated |
| `OneShots.RestoreProgress` | internal/controller/restore.go:80-105 | a pending restore is reported as failed exactly when that container exited otherwise, and as running exactly when there is none |
| `OneShots.MigrationReport` | internal/controller/migration.go:68-111 | a pending migration is reported by the exit code of that container, with its message as the source version |
| `OneShots.TemplateContainerLatches` | internal/resources/restore_init.go:49-51 | template and reconcilers agree on the names: a pod that ran the template's container to the end beside others of the user closes the pending latch |
| `OneShots.TemplateContents` | internal/resources/migration_init.go:25-95 | the containers in full, with the default images and the source volume's claim spelled out |
| `OneShots.ContainersForAnyInstance` | internal/resources/restore_init.go:13-22 | for any instance, admitted or not, exactly when each container and the source volume are built |
| `OneShots.LatchedIsReported` | internal/controller/restore.go:38-49 | once a latch is closed, any later pass that can write reports the operation as done |
| `OneShots.ReconcilersCommute` | internal/controller/hermesinstance_controller.go:188-197 | for every admitted spec the order of the two reconcilers in the pass does not matter |
| `OneShots.TemplateFollowsSpec` | internal/controller/hermesinstance_controller.go:576-593 | in every run a template holds at most one init container, the pending operation decides which, and the source volume comes with the migration container and is an emptyDir exactly for a snapshot source |
| `OneShots.RestoreFromImmutableOnceRestored` | internal/webhook/webhook_hermesinstance_validate.go:322-328 | in every run a change of restoreFrom that breaks no other rule is refused exactly when restoredFrom is set, although the code tests more |
| `OneShots.AdmittedMeansNoErrors` | internal/webhook/webhook_hermesinstance_validate.go:67-100 | the admission condition used in the runs is the absence of errors from the validator's rules |
| `OneShots.RecordNamesRestoredSnapshot` | internal/controller/restore.go:60-79 | in every run that latches, some pass closes the latch, and the record names the snapshot its pod restored exactly when restoreFrom still asked for it when that pass began |
| `OneShots.RecordIsRightUnlessEdited` | internal/resources/restore_init.go:13-33 | when pods come from templates of the past, that is exactly when restoreFrom is, at the closing pass, what it was when the container was built |
| `OneShots.ClosingPass` | internal/controller/restore.go:64-65 | every run that latches has a closing pass, and the record is for good what the spec said when it began |
| `OneShots.LatchRecordsTheSnapshot` | internal/controller/restore.go:64-65 | from an instance whose template restores a snapshot: the latch records it exactly when the spec asks for it in the end, which holds if every admitted update kept it, whatever the refused ones asked for |
| `OneShots.LatchRecordsAnEdit` | internal/controller/restore.go:64-65 | the failing side: for every pending restore, an edit before the latch closes makes the record name a snapshot that no pod restored |
| `OneShots.OneShotReconciler.RestoreReconcile` | internal/controller/restore.go:32-106 | the loop acts on the first terminated init-restore, latches on exit 0, records a failure otherwise, and reports progress when there is none |
| `OneShots.OneShotReconciler.MigrationReconcile` | internal/controller/migration.go:36-115 | the same for the migration container, with the source version taken from its message |
| `OneShots.RunInstancePass` | internal/controller/hermesinstance_controller.go:188-208 | migration first, then restore, then one more write of the in-memory status |
| `Admission.ValidateCreate` | internal/webhook/webhook_hermesinstance_validate.go:36-64 | no error exactly for a spec with at most one operation from exactly one source that breaks no other rule; the exclusion error and the source error each exactly for its cause |
| `Admission.ValidateUpdate` | internal/webhook/webhook_hermesinstance_validate.go:67-100 | no error exactly when latched parts, storage class and name are kept, the new spec is well formed and no other rule is broken; each immutability error exactly for its cause |
| `Admission.EqualMigrationIsEquality` | internal/webhook/webhook_hermesinstance_validate.go:372-376 | although empty fields are omitted from the JSON, equal JSON means equal migration specs |
| `SelfConfigPolicy.CheckProtectedPaths` | internal/controller/selfconfig_policy.go:72-101 | clear exactly when no node reachable through object keys has a dotted path covered by a pattern; otherwise the dotted path of the first covered node in pre-order with sorted keys; a malformed patch and the first bad pattern are told apart |
| `SelfConfigPolicy.Walk` | internal/controller/selfconfig_policy.go:105-123 | stops exactly when some node matches, and then at the first match in pre-order |
| `SelfConfigPolicy.JoinedIsDotted` | internal/controller/selfconfig_policy.go:125-130 | a joined path is the keys with a dot between each two, except that empty keys at the beginning leave no dot |
| `SelfConfigPolicy.JoinedRoundTrips` | internal/controller/selfconfig_policy.go:125-130 | splitting a joined path at its dots gives the keys back, when none holds a dot and the first is not empty |
| `SelfConfigPolicy.ReachesThrough` | internal/controller/selfconfig_policy.go:109-120 | every node below a key of an object is reached through that key |
| `SelfConfigPolicy.FirstHitUnique` | internal/controller/selfconfig_policy.go:111-115 | there is only one first match, so the answer does not depend on map iteration order |
| `SelfConfigPolicy.ExtensionComesLater` | internal/controller/selfconfig_policy.go:106-109 | a node comes before everything below it, so a reported path has no matching ancestor |
| `SelfConfigPolicy.SortedKeys` | internal/controller/selfconfig_policy.go:110-114 | all keys of the object and no others, sorted, whatever order the map gives them in |
| `SelfConfigPolicy.DetermineActions` | internal/controller/selfconfig_policy.go:31-49 | exactly the requested categories, none twice |
| `SelfConfigPolicy.CheckAllowedActions` | internal/controller/selfconfig_policy.go:53-65 | exactly the requested actions that are not allowed |
| `SelfConfigRuns.WritesPassTheGates` | internal/controller/hermesselfconfig_controller.go:75-116 | in every run each write goes back to a reconcile of an undecided generation that every gate let through, with the parent as it was then, and was planned by the request |
| `SelfConfigRuns.CompletedReconcileDecides` | internal/controller/hermesselfconfig_controller.go:75-123 | the first reconcile that can record its outcome decides the generation: applied exactly when no gate refuses and every planned write is accepted; a refusal writes nothing and names its gate |
| `SelfConfigRuns.AdmissionVerdict` | internal/controller/hermesselfconfig_controller.go:81-114 | over the fields: a request is let through exactly when its parent exists, has self-configuration on, allows every category asked for, at least one is, and no pattern matches the dotted path of a node of the patch |
| `SelfConfigRuns.RefusalReasons` | internal/controller/hermesselfconfig_controller.go:81-114 | over the fields: which gate refuses, the first that has cause |
| `SelfConfigRuns.PlanVerdict` | internal/controller/hermesselfconfig_controller.go:127-181 | what an admitted request writes: each category in one write of exactly what was asked, patch and files in a common one, and nothing else |
| `SelfConfigRuns.AppliedVerdict` | internal/controller/hermesselfconfig_controller.go:116-181 | over the fields: an admitted request is applied exactly when every write it needs is accepted; a snapshot needs Honcho to be on |
| `SelfConfigRuns.DecisionStands` | internal/controller/hermesselfconfig_controller.go:75-79 | after the decision no reconcile of that generation changes status or objects, whatever becomes of the parent |
| `SelfConfigRuns.EditReopens` | internal/controller/hermesselfconfig_controller.go:75-77 | an edit of a decided request is undecided again, with the earlier status and writes kept |
| `SelfConfigRuns.StatusNeverAhead` | internal/controller/hermesselfconfig_controller.go:198-221 | in every run the observed generation is never ahead of the request's, so every edit is looked at |
| `SelfConfigRuns.UnstoredOutcome` | internal/controller/hermesselfconfig_controller.go:83-88 | an outcome that cannot be stored leaves the status, and an unreadable parent leaves everything, as it was |
| `SelfConfigRuns.DeniedAfterWrites` | internal/controller/hermesselfconfig_controller.go:116-120 | a denial follows writes exactly when no gate refused, the first planned write was accepted and a later one was not |
| `SelfConfigRuns.ReportCountsRequest` | internal/controller/hermesselfconfig_controller.go:127-181 | the report has, in this order and without anything else, one entry per skill, per variable, one for a patch, one per file and one for a snapshot, each naming its element; it is empty exactly when nothing is requested |
| `SelfConfigRuns.ReportShowsCategory` | internal/controller/selfconfig_apply.go:93-99 | the report holds an entry of a category exactly when that category is requested |
| `SelfConfigRuns.EntriesNameTheirElement` | internal/controller/selfconfig_apply.go:93-99 | entries of one category tell their elements apart |
| `SelfConfigRuns.AdmittedRequestsPlanSomething` | internal/controller/hermesselfconfig_controller.go:96-99 | a request no gate refuses plans at least one write |
| `SelfConfigRuns.FilesWithoutContentAreOnlyReported` | internal/controller/selfconfig_apply.go:116-120 | every file is reported, but it is in the workspace patch exactly when it has literal content |
| `SelfConfigRuns.PatchSurvivesFiles` | internal/controller/selfconfig_apply.go:158-173 | the stored merge patch survives beside the files exactly when no file named selfconfig.yaml brings other content |
| `SelfConfigCounterexamples.DeniedSkillStays` | internal/controller/hermesselfconfig_controller.go:130-172 | a concrete request that is denied after its skill was written, because it also asks for a snapshot and Honcho is off |
| `SelfConfigCounterexamples.EmptyFileOnlyReported` | internal/controller/selfconfig_apply.go:116-120 | a concrete request whose file is reported as applied while the write claims no key |
| `SelfConfigCounterexamples.FileReplacesPatch` | internal/controller/selfconfig_apply.go:158-173 | a concrete request whose file takes the key of its own merge patch |
| `SelfConfig.SelfConfigReconciler.Reconcile` | internal/controller/hermesselfconfig_controller.go:62-123 | the stored status and the log of writes after a call, for every lookup result and set of accepted writes; it fails exactly on a read error or a refused status write |
| `SelfConfig.SelfConfigReconciler.CheckGates` | internal/controller/hermesselfconfig_controller.go:81-114 | the refusal, stated with quantifiers over actions and reachable nodes, in the order of the gates; a denial for a path names a protected node |
| `SelfConfig.SelfConfigReconciler.ApplyAll` | internal/controller/hermesselfconfig_controller.go:127-181 | the log grows by the planned writes up to the first that is refused, and success means all of them and the full report |
| `SelfConfig.SelfConfigReconciler.ApplySkills` | internal/controller/hermesselfconfig_controller.go:130-138 | the skills write and one report entry per skill |
| `SelfConfig.SelfConfigReconciler.ApplyEnvVars` | internal/controller/hermesselfconfig_controller.go:140-148 | the variables write and one report entry per variable |
| `SelfConfig.SelfConfigReconciler.ApplyWorkspace` | internal/controller/hermesselfconfig_controller.go:150-167 | one write for patch and files together, reported in that order |
| `SelfConfig.SelfConfigReconciler.ApplySnapshot` | internal/controller/hermesselfconfig_controller.go:169-178 | the snapshot Job, refused when Honcho is off |
| `SelfConfig.SelfConfigReconciler.BuildWorkspacePatch` | internal/controller/selfconfig_apply.go:107-173 | the stored patch overlaid by the files with literal content |
| `SelfConfig.SelfConfigReconciler.Deny` | internal/controller/hermesselfconfig_controller.go:195-213 | the denied status of this generation, keeping an earlier report |
| `SelfConfig.SelfConfigReconciler.MarkApplied` | internal/controller/hermesselfconfig_controller.go:215-237 | the applied status of this generation with its report and no reason |
| `ConfigTree.MergePathwise` | internal/resources/configmap.go:149-166 | at every path the overlay wins where it has a value, mappings merge, and the base shows through unless the overlay put a non-mapping further up |
| `ConfigTree.MergeAssociates` | internal/resources/configmap.go:149-166 | merging three documents is associative exactly when, at each path where both outer ones hold mappings and the middle one does not, the last covers the first |
| `ConfigTree.MergeAbsorbs` | internal/resources/configmap.go:149-166 | an overlay hides the base entirely exactly when it covers it |
| `ConfigTree.MergeCoversOverlay` | internal/resources/configmap.go:149-166 | overlaying the same document a second time changes nothing |
| `ConfigTree.EmptyIsIdentity` | internal/resources/configmap.go:149-166 | the empty document is an identity on both sides |
| `ConfigTree.DeepMergeMaps` | internal/resources/configmap.go:149-166 | the loop, visiting the overlay's keys in any order, computes the merge |
| `ConfigTree.MergeGatewayFragments` | internal/resources/configmap.go:76-99 | in-place loop: the user's gateways overlaid by the fragments, anything that is not a mapping dropped |
| `ConfigTree.EnsureModelDefault` | internal/resources/configmap.go:106-124 | nothing changes when a model is set, else the three placeholder keys |
| `ConfigTree.StagesCommute` | internal/resources/configmap.go:40-51 | the two stages may run in either order and each is idempotent |
| `ConfigTree.RenderedDocument` | internal/resources/configmap.go:40-51 | the result always has a model, gateways are the user's overlaid by the fragments, and every other key is as the user wrote it, or the placeholder's when no model was set |
| `ConfigTree.FragmentsReplaceDeeply` | internal/resources/configmap.go:71-92 | replacing gateway entries equals deep-merging them exactly when the fragments cover the user's entries |
| `ConfigTree.FragmentDropsUserKey` | internal/resources/configmap.go:86-93 | a concrete document whose gateway token is lost to a fragment, where deep merging keeps it |
| `ConfigTree.InlineWins` | internal/controller/hermesinstance_controller.go:273-290 | whatever the sources and the merge mode, the inline document decides each of its non-mapping paths outside gateways, except that the placeholder replaces a base_url or api_key of the user exactly when neither the inline document nor the one it is merged onto brings a model |
| `ConfigTree.RenderedVerdict` | internal/controller/hermesinstance_controller.go:273-290 | an equation for every path outside gateways, whatever the sources and the mode: it is as the documents give it, but while none of them has a model the three placeholder values, spelled out, stand at their keys |
| `ConfigTree.ReferencedShows` | internal/controller/hermesinstance_controller.go:282-289 | the companion for the referenced document: alone it is rendered as it is, merged it shows through wherever the inline one neither has the path nor blocks it, else it plays no part |
| `ConfigTree.GatewaysVerdict` | internal/resources/configmap.go:86-93 | with any fragment, each stands under its key, the user's other gateways stay, and gateways is a mapping |
| `Oci.HighestMatching` | internal/oci/client.go:72-93 | the answer is from the list, is a version the channel admits, and no admitted tag exceeds it; "no match" exactly when none is admitted, an error exactly for a bad channel |
| `Oci.LastIsHighest` | internal/oci/client.go:91-92 | the last element after sorting is a greatest one |
| `Oci.AnswerIgnoresListOrder` | internal/oci/client.go:78-92 | lists with the same tags get answers that differ at most in build metadata, and the same answer when no two admitted tags tie |
| `Oci.MoreTagsNeverLowerTheAnswer` | internal/oci/client.go:78-92 | further tags never lower the answer, and end a "no match" exactly when one of them is admitted |
| `Oci.AnswerHasGreatestNumbers` | internal/oci/client.go:91-92 | no admitted tag has a higher major than the answer, nor the same and a higher minor, nor the same two and a higher patch, and a release is not passed over for its pre-release |
| `Oci.DefaultChannelVerdict` | internal/oci/client.go:96-102 | the default channel is the major number in decimal and ".x", or everything |
| `SemVer.PrecedenceIsTotalPreorder` | internal/oci/client.go:91 | the precedence of section 11 of Semantic Versioning 2.0.0 is total and transitive |
| `SemVer.PrecedenceIsSection11` | internal/oci/client.go:91 | in both directions: the order is that of section 11, stated by first differences of numbers, identifiers and characters |
| `SemVer.NumbersDecide` | internal/oci/client.go:91 | major, minor and patch are compared numerically and in this order |
| `SemVer.ReleaseExceedsPreRelease` | internal/oci/client.go:91 | a release exceeds each of its own pre-releases |
| `SemVer.FirstIdentifierDecides` | internal/oci/client.go:91 | between pre-releases the first different identifier decides: numbers by value and before texts, texts by character |
| `SemVer.LongerListIsHigher` | internal/oci/client.go:91 | a longer list of identifiers exceeds its own beginning |
| `SemVer.EqualPrecedence` | internal/oci/client.go:91 | equal precedence means equal up to build metadata |
| `Orders.SortBySorts` | internal/oci/client.go:91 | what the operator relies on in its sort calls: sorted and a permutation |
| `Orders.SortedUnique` | internal/resources/workspace_configmap.go:49-52 | sorting strings leaves no choice, so the directory list does not depend on the order it was written in |
| `Orders.StringOrder` | internal/controller/selfconfig_policy.go:114 | the first different character decides between texts, and a beginning comes before what extends it |
| `WorkspacePath.RoundTripCondition` | internal/resources/workspace_configmap.go:26-33 | decoding an encoded path gives it back exactly when it holds neither `__` nor `_/` |
| `WorkspacePath.KeyRoundTripCondition` | internal/resources/workspace_configmap.go:26-33 | encoding a decoded key gives it back exactly when it holds no slash |
| `WorkspacePath.EncodeInjective` | internal/resources/workspace_configmap.go:26-28 | two different unambiguous paths never share a key |
| `WorkspacePath.ReservedKeyCondition` | internal/resources/workspace_configmap.go:13-16 | a relative path encodes to the reserved key exactly when it is that key |
| `WorkspacePath.ReservedNameIsLost` | internal/resources/workspace_configmap.go:48-53 | a file of the reserved name is stored, and then replaced by the sorted directory list |
| `WorkspacePath.BuildWorkspaceConfigMap` | internal/resources/workspace_configmap.go:38-62 | the data holds the last body under each key and nothing else, plus the sorted directory list under the reserved key when there are directories |
| `WorkspacePath.DirsAreListed` | internal/resources/workspace_configmap.go:48-53 | reading the reserved key line by line gives every directory, sorted, and no other |
| `WorkspacePath.BodyVerdict` | internal/resources/workspace_configmap.go:41-46 | content is stored as it is, except that a usage block stands on lines of its own before that of SOUL.md |
| `WorkspacePath.NoStorableFileLost` | api/v1/hermesinstance_types.go:307-312 | files with distinct, relative, unambiguous paths are all found under their own keys, which decode to their paths, also beside the directory list |
| `Labels.HistoryLeavesNoTrace` | internal/resources/common.go:26-38 | reconciling through any sequence of desired maps equals one merge with the last exactly when every foreign key desired before and no longer already had its newest desired value |
| `Labels.OperatorLabelsConverge` | internal/resources/common.go:14-38 | for the operator's own maps, standard labels plus prefixed ones, that is always so |
| `Labels.WhereLabelsComeFrom` | internal/resources/common.go:26-38 | after any number of reconciles an owned key comes only from the last desired map, a foreign key from the newest map that named it, else from the start |
| `Labels.OwnedVerdict` | internal/resources/common.go:29 | a key is the operator's exactly when it is the prefix and something after it |
| `Labels.StandardLabels` | internal/resources/common.go:14-21 | the standard labels tell instances apart and carry the four recommended keys, none of them prefixed |
| `Labels.MergePreservingForeign` | internal/resources/common.go:26-38 | the two loops, in any key order, drop stale owned keys, keep foreign ones and let desired values win |

## Left out

- API server, client caches, server-side-apply field ownership, owner references and garbage collection: reads are current and writes atomic, each with its own success or failure.
- Refresh of the in-memory object by the response of a patch: a pass keeps the status copy it started from, so the check time stored by a pass that patches the annotation may be newer than the one a live client would store. `PollsAreApart` speaks only of polls whose time was stored, and no other result depends on it but `FinalWriteStoresPoll`.
- The main controller's rewriting of the StatefulSet: its containers' images only, and in the run theorems it is a move of its own; the replica counters that follow from a new template are an arbitrary change of the StatefulSet.
- The clock within one pass: constant.
- The freshness of a pre-update backup: the Job name is fixed per instance, so only "a Complete Job is stored now" is claimed.
- Manual edits of the status subresource: not part of any run.
- The 32-bit width of the failure counter and of the threshold: unbounded integers.
- A failed status write of a self-configuration makes the next reconcile repeat the writes: the log records the repetition, but what the API server makes of a second identical write is not modelled.
- OperatorLabelsConverge: covers the objects that carry the standard labels plus prefixed ones; Grafana dashboards add one more fixed key, and labels or annotations taken from the spec are covered by HistoryLeavesNoTrace.
- YAML and JSON parsing and printing: documents are trees; a document that parses to null is not modelled, and neither are parse errors in BuildConfigMap, which keep the body as it is.
- Glob compilation and matching, version parsing, channel syntax: parameters, with every statement for all of them.
- Registry calls and the tag cache: the tag list is an input of each poll.
- Application of the stored JSON merge patch (RFC 7396): done by the agent, elsewhere.
- Admission rules about image, storage, self-configuration, availability, gateways and tailscale, and all warnings: one parameter that holds their errors.
- Condition messages, transition times, events, metrics and logs.
- Scheduled backups, the scripts inside Jobs and init containers, and the manifest builders: mostly constant records.
- Semaphore provisioning and its finalizer: HTTP plumbing.
