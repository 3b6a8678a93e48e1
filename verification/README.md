# Verified model of the Agent Console server

A Dafny 4.11 model of the stateful core of the session and agent-coordination server under `apps/server/src`, with proofs of what
that core promises. `dafny verify dfyconfig.toml` checks it.

Code that changes state is modelled twice: a transition function for each stretch between two awaits (or each transaction), and a
class whose methods change the fields step by step and are proved to meet it. The promises are lemmas over whole runs of
transitions, where anything that can come in between two awaits is an event of its own.

| files | component |
|---|---|
| `RunRecovery.dfy`, `RunRecoverySafety.dfy`, `RunRecoveryExits.dfy`, `RunRecoveryReplay.dfy`, `RunRecoveryOutcomes.dfy`, `RunRecoveryService.dfy` | retrying a run that a transient provider failure ended |
| `InboxPolicy.dfy`, `InboxSafety.dfy`, `InboxHistory.dfy` | where a coordination message lives: rows, policies, expiry index, handoffs |
| `Coordination.dfy`, `CoordinationSafety.dfy`, `CoordinationTheorems.dfy`, `CoordinationService.dfy` | assignments, tasks, mail, dispatch |
| `WorkerReports.dfy`, `Waits.dfy`, `UsedIds.dfy`, `WorkerNews.dfy`, `HandoffDelivery.dfy` | what whole runs do to reports, waits, message IDs and handoffs |
| `CoordinationOutcomes.dfy`, `AssignmentOutcomes.dfy` | when a call succeeds, and what it leaves |
| `Chains.dfy`, `Supervisors.dfy` | the visited-set walk and the supervisor relation |
| `WikiSearch.dfy`, `WikiStore.dfy` | the window scans of the wiki search and its write transaction |
| `SessionLaunches.dfy`, `SessionLaunchSafety.dfy`, `SessionLaunchOutcomes.dfy`, `SessionLaunchService.dfy` | grants and the session requests made under them |
| `TimelineMerge.dfy`, `Pagination.dfy` | merging live messages into a transcript; paging it |
| `TranscriptCache.dfy`, `TranscriptAnswers.dfy`, `InputQueue.dfy` | the transcript cache; the delivery journal |
| `ImagePrompt.dfy`, `SearchChunks.dfy`, `SearchWords.dfy`, `Text.dfy`, `Common.dfy` | the image envelope; the search chunker; string helpers |

How the source is read:

- Time is an integer number of milliseconds. One operation reads the clock once, although the source may read it again a moment
  later inside the same synchronous stretch.
- A timestamp string is its place in string order and what `Date.parse` makes of it; for strings that come from a provider the two
  are independent.
- Digests are collision-free. Random UUIDs are new: runs assume so of handoff and alert IDs.
- A dispatch ID is assumed not to have been used as a message ID, because `dispatch` looks only for a dispatch record.
  `UsedIdIsDispatchedIff` says exactly what happens otherwise.
- An episode of run recovery starts with a record at no attempts. A new failing turn inherits the attempts of a record that is
  `retrying` and made no progress, and starts a new episode otherwise.
- In `NoReplay` only what the provider reports is an answer, or a deferral. The server confirms a completion while the run that
  completed is being adopted (`apps/server/src/sessions/session-manager.ts:504` and `:955-967`), and that run is such a report; a
  confirmation of an older run would count as an answer of its own.
- A retry timer that `refresh` re-arms inside `retry` loses its handle when the acknowledgement timer is stored over it. The model
  keeps such callbacks pending, and they may still fire.

Where a promise does not hold of the code as it stands, the model keeps the code, and lemmas give a run or an input that shows it
and say exactly when the promise holds:

- A retry that may have been delivered is not sent again, unless the exit of its process is adopted: `processExited` makes a failing
  turn of its own, which inherits the attempts and is retried although the provider has said nothing. `ExitIsScheduledIff` and
  `ExitAfterRestartIff` give the condition, `SubmissionMayBeReplayed` and `KilledSubmissionIsSentTwice` the runs. With an exit's
  stopped record a further report of the old turn starts an episode of its own (`ReportAfterExitIff`). `RetryIsPlannedAgainIff` and
  `NoReplayUnlessExitIsRetried` say that nothing else sends it again.
- Supervisor chains end, exactly when launch bindings are as `SupervisorsStayGrounded` and `BindingIsSafeIff` say; see
  `RegistrationCanCloseACycle`.
- A message enters an inbox once, unless a dispatch takes a used ID: `UsedIdIsDispatchedIff`, `AnExpiredIdIsDispatched`.
- A cancelled request was never called, exactly when it was never put back in the queue: `CancelledRequestsAreNotCalled`,
  `ARefusedRequestWasCalled`.
- Stripping the instruction of a prompt twice, displaying a stripped prompt, and reading back what was printed:
  `StrippingIsIdempotentIff` and `TwoInstructionsAreStrippedInTurn`, `StrippingKeepsDisplayIff` and
  `ARefusedRowIsDisplayedDifferently`, `RoundTripIff`.

## Model

| member | source | states |
|---|---|---|
| `RunRecoverySafety.BudgetIsBounded` | apps/server/src/sessions/run-recovery.ts:206-259 | In every run, with Stop, crashes, rewritten session rows and stale timers anywhere: attempts never exceed the limit, a scheduled record has an attempt left and a retry time, a stopped or retrying one has no retry time, and the submissions of an episode that were not deferred number at most the attempts spent |
| `RunRecoverySafety.EverySubmissionIsJustified` | apps/server/src/sessions/run-recovery.ts:261-297 | Whenever a recovery prompt is sent, the record is that of a failed, retryable run which the last Stop does not cover, the failure is at most ten minutes old, an attempt is left, its planned time has come, and no earlier submission is still unanswered |
| `RunRecoverySafety.NoReplay` | apps/server/src/sessions/run-recovery.ts:292-331 | Once an attempt is saved and handed to the transport, nothing more is sent in any continuation, restarts included, until it is deferred or the provider reports another turn or one that did not fail; unless a process exit, which the server makes a failing turn itself, is adopted in between |
| `RunRecoveryReplay.NoReplayUnlessExitIsRetried` | apps/server/src/sessions/run-recovery.ts:157-331 | The same with process exits: nothing more is sent before an answer as long as no exit that is decided on meets the guard of a retry, and the provider does not report the old turn again after an exit has taken over the record |
| `RunRecoveryReplay.RetryIsPlannedAgainIff` | apps/server/src/sessions/run-recovery.ts:189-259 | In every continuation without a deferral, whatever the provider reports, a record plans a retry again exactly when a decision comes on a new failing turn that meets the guard; until then nothing is sent |
| `RunRecoveryReplay.ReportAfterExitIff` | apps/server/src/sessions/run-recovery.ts:213-243 | Beside a stopped record a new report of a failing turn, be it the old one, starts an episode with no attempts spent, and a retry is planned exactly when recovery is allowed, it is not older than the observation, uncovered by Stop, retryable and in the window |
| `RunRecoveryExits.ExitIsScheduledIff` | apps/server/src/sessions/run-recovery.ts:213-243 | An exit adopted beside a retry that was handed over becomes a planned retry with the same attempts exactly when recovery is allowed, the session is bound and restorable, an attempt is left, Stop does not cover the exit and it is at most ten minutes old |
| `RunRecoveryExits.ExitAfterRestartIff` | apps/server/src/sessions/run-recovery.ts:94-109 | The server was killed during a retry and then finds the process gone: with no report from the provider the exit becomes a planned retry exactly when recovery is allowed, the session is bound and restorable, an attempt is left, Stop does not cover the exit and the retry was not for this very exit |
| `RunRecoveryExits.NewRecordIsScheduledIff` | apps/server/src/sessions/run-recovery.ts:219-243 | The record written for a new failing turn plans a retry exactly when recovery is allowed, the turn is recent and not covered by Stop, its error is retryable, an attempt is left and the window is open |
| `RunRecoveryExits.SubmissionMayBeReplayed` | apps/server/src/sessions/run-recovery.ts:94-109 | Any submission of any run that leaves another attempt (with a backoff inside the window) in a bound and restorable session, for a failure that is not an exit of this process and with no Stop that covers one now, can be followed, after a kill and an exit, by a second one that no report lies between |
| `RunRecoveryExits.KilledSubmissionIsSentTwice` | apps/server/src/sessions/run-recovery.ts:94-109 | A concrete run from the start in which one prompt is sent twice without a report in between |
| `RunRecoverySafety.NothingIsSentAfterStop` | apps/server/src/sessions/run-recovery.ts:127-143 | After Stop no queued timer, running retry or deferred submission leads to a submission until a record is written for a failing run Stop does not cover: one it did not name and that started later |
| `RunRecoverySafety.StepKeepsInv` | apps/server/src/sessions/run-recovery.ts:157-332 | Every one of the sixteen kinds of step keeps: the visible failure is the stored one, the record is within its budget and belongs to the run that caused it, a record that may still send is retryable and not covered by Stop, and what a submission under way may find |
| `RunRecoverySafety.DeferralUndoesTheAttempt` | apps/server/src/sessions/run-recovery.ts:313-323 | A deferred submission gives the attempt back: inside the window the record is the one from before it with the next backoff time, outside it is stopped |
| `RunRecoverySafety.CancelIsAStop` | apps/server/src/sessions/run-recovery.ts:127-143 | Stop turns an unfinished record into a stopped one without a retry time and leaves a stopped one alone |
| `RunRecoverySafety.RecordForIsOk` | apps/server/src/sessions/run-recovery.ts:219-243 | A new record is within the limit, and one that plans a retry is retryable and not covered by the last Stop |
| `RunRecoveryOutcomes.FinishedRunClears` | apps/server/src/sessions/run-recovery.ts:193-211 | A run that completed or was cancelled clears the record and its notice, except Claude's completed run without a recorded response as late as that, which leaves both |
| `RunRecoveryOutcomes.RunningRunClears` | apps/server/src/sessions/run-recovery.ts:193-203 | A run under way clears the record; for another turn's retry that it has not answered with output it clears only the notice, and the attempts stay counted |
| `RunRecoveryOutcomes.UnboundSessionsKeepTheirRecord` | apps/server/src/sessions/run-recovery.ts:189-190 | For a session that is gone, unbound or not to be restored nothing is written |
| `RunRecoveryOutcomes.PlannedTurnAgain` | apps/server/src/sessions/run-recovery.ts:212-213 | A planned retry of the same turn is armed again, or stopped when window or attempts are used up |
| `RunRecoveryOutcomes.RetriedTurnAgain` | apps/server/src/sessions/run-recovery.ts:212-217 | A retry under way whose turn a new observation finds failed is stopped as uncertain; otherwise the record stays |
| `RunRecoveryOutcomes.NewFailureIsRecorded` | apps/server/src/sessions/run-recovery.ts:219-259 | A newly failed turn gets its own record with the attempts it inherits; a planned retry is due after the backoff of that many attempts and has its timer |
| `RunRecoveryOutcomes.SubmissionSettles` | apps/server/src/sessions/run-recovery.ts:297-331 | A delivered submission leaves the record and arms the acknowledgement check; a refused or uncertain one stops the record with the attempt counted |
| `RunRecoveryOutcomes.StoppedStaysStopped` | apps/server/src/sessions/run-recovery.ts:312-331 | What Stop has stopped, no answer of the transport moves |
| `RunRecoveryOutcomes.UnacknowledgedRetryStops` | apps/server/src/sessions/run-recovery.ts:299-310 | The acknowledgement check stops the retry exactly when the provider still shows the turn that failed |
| `RunRecoveryOutcomes.BlockedRetry` | apps/server/src/sessions/run-recovery.ts:270-290 | A retry that is blocked when due stops the record, unless an exited process could not be restored and an attempt is left, which is counted |
| `RunRecoveryOutcomes.AnswerIsAdoptedIff` | apps/server/src/sessions/run-recovery.ts:174-188 | The noted exit counts until a later run is reported, and the run is adopted exactly when the observation is still the one that asked and has not seen it |
| `RunRecoveryOutcomes.ConfirmationClearsIff` | apps/server/src/sessions/run-recovery.ts:118-125 | A confirmed completion clears the record exactly for the observed run of a bound session with its response recorded |
| `RunRecoveryOutcomes.WatchObserves` | apps/server/src/sessions/run-recovery.ts:67-82 | Watching observes the path, has it read, and carries a standing exit along |
| `RunRecoveryOutcomes.ExitIsNoted` | apps/server/src/sessions/run-recovery.ts:94-109 | The exit of a process is noted once, as a failing run of it, unless recovery is not allowed or was stopped |
| `RunRecoveryOutcomes.DurableStays` | apps/server/src/sessions/run-recovery.ts:111-168 | A crash leaves record, session and cancellation and nothing else; other writes to the session leave the failure in it |
| `RunRecoveryOutcomes.RetryIsPlannedIff` | apps/server/src/sessions/run-recovery.ts:219-243 | A new record plans a retry exactly when recovery is allowed, the failure is an overload, an outage or an exit, Stop does not cover it, an attempt is left, it is at most ten minutes old, and it is new to this observation or answers the retry |
| `RunRecoveryOutcomes.DefaultBackoff` | apps/server/src/sessions/run-recovery.ts:219-259 | With the delays of the server the retries of an episode are planned for 15 seconds, 45 seconds and two minutes later |
| `RunRecoveryOutcomes.TimerQueuesItsTask` | apps/server/src/sessions/run-recovery.ts:252-259 | A timer that fires queues its own task, once |
| `RunRecoveryOutcomes.TaskReadsFirst` | apps/server/src/sessions/run-recovery.ts:261-265 | A task that has the lock has the provider read first; one of a replaced observation does nothing |
| `RunRecoveryOutcomes.StopCoversIff` | apps/server/src/sessions/run-recovery.ts:127-143 | Stop covers exactly the observed turn and every turn that had started by then |
| `RunRecoveryOutcomes.StoppedRunIsNeverPlanned` | apps/server/src/sessions/run-recovery.ts:225-243 | However long after Stop, a failing run that had started by then is never planned for a retry |
| `RunRecoveryService.RunRecovery.Watch` | apps/server/src/sessions/run-recovery.ts:67-82 | Attaches, re-paths or replaces the observation exactly as the transition says; a process-exit failure is carried over |
| `RunRecoveryService.RunRecovery.Cancel` | apps/server/src/sessions/run-recovery.ts:127-143 | Bumps the generation, drops the timer, stores the turn boundary and stops the record; afterwards there is no record or a stopped one |
| `RunRecoveryService.RunRecovery.ConfirmCompletion` | apps/server/src/sessions/run-recovery.ts:118-125 | Clears the record exactly when the completed run is the observed one and the session recorded its response, and otherwise changes nothing |
| `RunRecoveryService.RunRecovery.ProcessExited` | apps/server/src/sessions/run-recovery.ts:94-109 | Synthesizes one failing run per exit unless recovery is stopped or not allowed, then refreshes |
| `RunRecoveryService.RunRecovery.MonitorAnswers` | apps/server/src/sessions/run-recovery.ts:174-188 | Adopts a report unless the observation moved on or nothing is new |
| `RunRecoveryService.RunRecovery.DecideRun` | apps/server/src/sessions/run-recovery.ts:189-244 | Keeps, clears, reschedules or creates the failure record |
| `RunRecoveryService.RunRecovery.NotFailed` | apps/server/src/sessions/run-recovery.ts:193-211 | Clears the record or only its notice on a run that is not failed |
| `RunRecoveryService.RunRecovery.Schedule` | apps/server/src/sessions/run-recovery.ts:246-259 | Rechecks window and limit before it sets a timer; without one the record is stopped |
| `RunRecoveryService.RunRecovery.RefreshReturns` | apps/server/src/sessions/run-recovery.ts:265-310 | Goes on with the retry, or with the acknowledgement check, only while the record still asks for it |
| `RunRecoveryService.RunRecovery.ReadinessKnown` | apps/server/src/sessions/run-recovery.ts:270-293 | Rechecks everything after the readiness check; when it goes on to transport, the attempt is already saved |
| `RunRecoveryService.RunRecovery.TransportAnswers` | apps/server/src/sessions/run-recovery.ts:294-331 | Settles a submission as delivered, deferred, rejected or uncertain |
| `RunRecoveryService.RunRecovery.HandleAll` | apps/server/src/sessions/run-recovery.ts:60-332 | Any calls and stretches, in any order, leave the object in the state of that run, so the theorems above hold of it; its record is within its budget |
| `CoordinationTheorems.ReachableMailIsSound` | apps/server/src/coordination/inbox-policy.ts:38-94 | In every reachable state an unacknowledged row has a live policy and its own expiry key, an acknowledged row was supplied and has no key, keys name live messages only, handoffs are held, present or expired, and the pools are within capacity |
| `CoordinationTheorems.InboxesAreBounded` | apps/server/src/coordination/inbox-policy.ts:13-18 | Each recipient has at most 100 unacknowledged P1 rows and at most 100 others, over all five writers |
| `InboxSafety.ExpirySweepsExactly` | apps/server/src/coordination/inbox-policy.ts:70-94 | expireMessages removes exactly the unacknowledged rows whose time has come, leaves every other row untouched and no due key behind, and keeps the invariant |
| `InboxSafety.ExpireKeepsHandoffs` | apps/server/src/coordination/inbox-policy.ts:88-92 | The sweep leaves every handoff held, present or gone with its text, in step with its message |
| `CoordinationTheorems.NothingExpiredIsSupplied` | apps/server/src/coordination/service.ts:439-466 | Every message of a batch is live at that time, unacknowledged and addressed to the reader |
| `Coordination.SelectionIs` | apps/server/src/coordination/service.ts:443-449 | What is selected for a reader is exactly the offerable mail that passes the filter |
| `CoordinationTheorems.BatchIsMostUrgent` | apps/server/src/coordination/service.ts:446-452 | Mail that passes the filter is left out of a batch only when the batch is full, and never for something less urgent |
| `WorkerReports.ReportsWaitForTheDigest` | apps/server/src/coordination/service.ts:441-456 | A worker report that the last digest did not have, present or still to arrive, is not supplied in any run in which the hooks of its reader find no digest due and nothing urgent |
| `WorkerReports.DigestCarriesReports` | apps/server/src/coordination/service.ts:446-462 | A digest that goes out leaves no waiting report behind: each is supplied now, or belongs to the digest and passes the filter of the hooks that follow |
| `CoordinationTheorems.SupplyMarksTheBatch` | apps/server/src/coordination/service.ts:457-462 | Supplying marks exactly the rows of the batch and keeps the set of messages |
| `CoordinationTheorems.AcknowledgeSorts` | apps/server/src/coordination/service.ts:371-388 | Every ID asked for ends in one of the two lists: acknowledged ones were supplied to that recipient, the others expired without ever being supplied; no other row changes |
| `CoordinationTheorems.MessagesArriveOnce` | apps/server/src/coordination/service.ts:349-369 | Over any run a message enters the inbox at most once, and never under a used ID that is not a held handoff |
| `CoordinationTheorems.AcknowledgedRowsStay` | apps/server/src/coordination/inbox-policy.ts:79-84 | An acknowledged row is never deleted or changed |
| `CoordinationTheorems.HandoffsAreConserved` | apps/server/src/coordination/service.ts:568-620 | A handoff keeps its message and is always in exactly one phase; present never goes back to held and expired stays expired |
| `InboxSafety.FlushOneKeeps` | apps/server/src/coordination/service.ts:607-617 | Moving a held handoff into a recipient with room keeps every part of the invariant |
| `InboxSafety.HandOffKeeps` | apps/server/src/coordination/service.ts:591-598 | Storing a handoff, held or present at once, keeps every part of the invariant |
| `CoordinationSafety.StepSound` | apps/server/src/coordination/service.ts:349-620 | Each of the fifteen kinds of event keeps the mail invariant and only moves a message forward |
| `CoordinationTheorems.OneDispatchPerRevision` | apps/server/src/coordination/service.ts:424-432 | A worker and task revision have at most one dispatch message |
| `CoordinationTheorems.OneEligibleDispatchPerWorker` | apps/server/src/coordination/tasks.ts:32-44 | In every reachable state at most one message per worker satisfies dispatchEligible |
| `CoordinationTheorems.RepeatedDispatchIsIdempotent` | apps/server/src/coordination/service.ts:409-415 | Repeating a dispatch that succeeded, after any run, changes nothing but expiry |
| `CoordinationTheorems.RevisionsRise` | apps/server/src/coordination/tasks.ts:13-29 | Over any run task revisions never fall, a task that differs has a greater revision, and dispatch records stay |
| `CoordinationSafety.UpdateTaskEvolves` | apps/server/src/coordination/tasks.ts:13-29 | A first record has revision 1; an update either returns the prior record unchanged or raises the revision by one for a record that differs |
| `CoordinationTheorems.UsedIdIsDispatchedIff` | apps/server/src/coordination/service.ts:408-432 | dispatch never looks for a message policy: with its other checks passed it takes a used ID exactly when that message has no row, and otherwise fails on the duplicate key |
| `UsedIds.AnExpiredIdIsDispatched` | apps/server/src/coordination/service.ts:408-432 | A concrete run from the start in which a message enters the inbox twice, because a dispatch takes the ID of an expired message |
| `Waits.WaitIsAnnouncedOnce` | apps/server/src/coordination/continuation.ts:62-81 | In any run without a new declaration of a wait it is announced at most once, however often and late the check is repeated, and not at all when none is pending |
| `Waits.AnnouncementsNeedDeclarations` | apps/server/src/coordination/continuation.ts:51-81 | Over any run there are no more announcements than declarations of a wait |
| `Supervisors.SupervisorsStayGrounded` | apps/server/src/coordination/service.ts:212-229 | Every chain of supervisors ends, and no assignment supervises itself, in all states of a run exactly when each launched session in it is bound to a supervisor whose chain does not lead back to it |
| `Supervisors.SupervisorsFromTheStart` | apps/server/src/coordination/service.ts:212-229 | The same for every run from the start |
| `Supervisors.UpdateKeepsGrounded` | apps/server/src/coordination/service.ts:201-253 | An accepted supervisor change keeps every chain ending |
| `Supervisors.BindingIsSafeIff` | apps/server/src/grants/service.ts:33-36 | The unchecked binding of a launched session keeps the chains ending exactly when the chain of its supervisor does not lead back to it |
| `Supervisors.RegistrationCanCloseACycle` | apps/server/src/grants/service.ts:33-36 | A concrete run from the start, at the end of which two assignments supervise each other |
| `Chains.WalkChain` | apps/server/src/coordination/service.ts:213-219 | The visited-set walk ends in every state and gives the verdict of its recursive definition |
| `Chains.ClearIff` | apps/server/src/coordination/service.ts:213-219 | The walk accepts exactly the targets whose chain ends, stays admissible and never comes back |
| `Chains.LinkKeepsGrounded` | apps/server/src/coordination/service.ts:212-226 | A link the walk accepts keeps every chain ending |
| `Chains.UncheckedLinkIff` | apps/server/src/grants/service.ts:33-36 | An unchecked link keeps every chain ending exactly when its target does not lead back |
| `HandoffDelivery.NothingWaitsWithRoom` | apps/server/src/coordination/service.ts:603-620 | After every periodic flush and every acknowledgement that succeeds, over all held handoffs, one is still held only if its recipient is no assignment or has no room for it |
| `HandoffDelivery.DeliveredAsHandedOff` | apps/server/src/coordination/service.ts:607-617 | A held handoff is afterwards held, expired, or in the inbox with its worker, recipient, text and time |
| `HandoffDelivery.FlushIsInOrder` | apps/server/src/coordination/service.ts:603-617 | Room is given in key order: behind a handoff left waiting for a full pool none gets into that pool |
| `HandoffDelivery.FlushDelivers` | apps/server/src/coordination/service.ts:603-617 | Each handoff of a flush that is still waiting has an unknown recipient or no room |
| `WorkerNews.TaskNewsIsHandedOff` | apps/server/src/coordination/service.ts:236-253 | An update that changes a task to done, to needing action or to needing another action is handed off to the supervisor, and no other update is |
| `WorkerNews.FinishIsHandedOff` | apps/server/src/coordination/service.ts:497-510 | Finishing closes the assignment with its task and its wait, and tells the supervisor when work was owed |
| `WorkerNews.DisconnectIsHandedOff` | apps/server/src/coordination/service.ts:512-520 | A disconnected unattended worker with work owed is reported to its supervisor |
| `WorkerNews.NotifyHandsOff` | apps/server/src/coordination/service.ts:568-601 | A handoff is stored once per event, revision and reason, addressed to the supervisor, P2 and for a week unless said otherwise, and in the inbox exactly when there is room |
| `CoordinationOutcomes.SendSucceedsIff` | apps/server/src/coordination/service.ts:349-369 | A message under a new ID is taken exactly when its recipient is known and accepts mail, its options make sense and its pool has room after the sweep |
| `CoordinationOutcomes.SentMessageIsThere` | apps/server/src/coordination/service.ts:349-369 | It is then in the inbox exactly as sent, with its priority, reason and time to live |
| `CoordinationOutcomes.SentMessageLives` | apps/server/src/coordination/inbox-policy.ts:38-94 | Left unread it is there until its time has come and no longer |
| `CoordinationOutcomes.BatchIsOldestFirst` | apps/server/src/coordination/service.ts:443-452 | Among mail of one priority a batch takes the oldest |
| `CoordinationOutcomes.WhatIsSelected` | apps/server/src/coordination/service.ts:441-449 | mail takes all that is offered; a hook leaves P3, and always takes P1 and P2 that is no report |
| `CoordinationOutcomes.IsReportIff` | apps/server/src/coordination/service.ts:441-449 | A report is P2 mail from someone whose supervisor is its reader |
| `CoordinationOutcomes.OfferedIff` | apps/server/src/coordination/service.ts:441-446 | Mail is offered to its recipient until acknowledged, and not within a minute of being supplied |
| `CoordinationOutcomes.AcknowledgementIsTakenIff` | apps/server/src/coordination/service.ts:375-387 | A message can be acknowledged exactly by its recipient, once supplied or expired |
| `CoordinationOutcomes.AcknowledgedIsNeverOffered` | apps/server/src/coordination/service.ts:371-391 | A message that was acknowledged is never offered again, in any run and to anyone |
| `CoordinationOutcomes.RepeatedSend` | apps/server/src/coordination/service.ts:349-360 | A repeated send only sweeps, and is an error exactly when it is not the same message |
| `CoordinationOutcomes.RepeatedDispatch` | apps/server/src/coordination/service.ts:408-415 | A repeated dispatch only sweeps, and is an error exactly when it asks for something else |
| `CoordinationOutcomes.AcknowledgementErrors` | apps/server/src/coordination/service.ts:375-381 | Another recipient and a message that was not supplied are told apart |
| `WorkerReports.DigestComesRound` | apps/server/src/coordination/service.ts:450-456 | After a digest the next is due a quarter of an hour later |
| `AssignmentOutcomes.TaskUpdateIs` | apps/server/src/coordination/tasks.ts:13-29 | A task update is taken exactly when no text of the result is blank and a needed action is named; each field is what was given and otherwise what it was |
| `AssignmentOutcomes.UpdateSetsWhatItNames` | apps/server/src/coordination/service.ts:221-240 | An update that is taken sets status, continuation, supervisor and wait as named and nothing else |
| `AssignmentOutcomes.ClosedAssignmentsStay` | apps/server/src/coordination/service.ts:201-211 | An unknown, finished or disconnected assignment takes no update |
| `AssignmentOutcomes.WaitIsDeclaredIff` | apps/server/src/coordination/continuation.ts:51-59 | A wait can be declared exactly in unattended work |
| `AssignmentOutcomes.DispatchSucceedsIff` | apps/server/src/coordination/service.ts:406-437 | A dispatch under a new ID succeeds exactly when the worker is the caller's and can be started, its task is complete and at the expected, undispatched revision, and there is room |
| `AssignmentOutcomes.DispatchIsEligible` | apps/server/src/coordination/tasks.ts:32-44 | A dispatch that succeeds is in the worker's inbox for a week and is the one that may start it |
| `AssignmentOutcomes.DispatchChangesOneTask` | apps/server/src/coordination/service.ts:416-432 | It activates the worker's task as asked and moves no other task or control |
| `AssignmentOutcomes.EligibleIff` | apps/server/src/coordination/tasks.ts:32-44 | A message may start a worker exactly when it is a live dispatch for the current revision of a task in work, from the supervisor, and nothing holds the worker back |
| `AssignmentOutcomes.SupervisorIsRefusedBecause` | apps/server/src/coordination/service.ts:212-220 | A supervisor is refused as finished or unknown because it or one above it is |
| `AssignmentOutcomes.UpdateIsNumbered` | apps/server/src/coordination/service.ts:221-240 | An update that describes or redirects the work is the assignment's newest event, and any other is none |
| `AssignmentOutcomes.OverdueWaitIsAnnounced` | apps/server/src/coordination/continuation.ts:62-81 | The check of a wait tells the supervisor exactly when it is unattended, four hours old, not yet announced and there is room; otherwise it only sweeps |
| `AssignmentOutcomes.RegistrationOpens` | apps/server/src/coordination/service.ts:137-172 | An assignment that registers is active unless finished, and takes mail as it says |
| `AssignmentOutcomes.RegistrationBinds` | apps/server/src/grants/service.ts:28-40 | A launched session works unattended for its launcher, unless that is gone or the assignment was set up before |
| `CoordinationService.CoordinationService.ExpireMessages` | apps/server/src/coordination/inbox-policy.ts:70-94 | The two loops over expired keys and handoffs compute the sweep, whatever order they take the keys in |
| `CoordinationService.CoordinationService.SweepKeys` | apps/server/src/coordination/inbox-policy.ts:77-87 | The loop over the due keys deletes and marks exactly the messages that die |
| `CoordinationService.CoordinationService.Send` | apps/server/src/coordination/service.ts:349-369 | Meets the transition with its order of errors; after a success the ID stands for exactly this content |
| `CoordinationService.CoordinationService.Mail` | apps/server/src/coordination/service.ts:439-482 | Sweeps, then returns and supplies the selected batch, and keeps the invariant |
| `CoordinationService.CoordinationService.Inbox` | apps/server/src/coordination/service.ts:441-466 | Filter, sort by urgency, cut at twenty, digest note and supply |
| `CoordinationService.CoordinationService.Acknowledge` | apps/server/src/coordination/service.ts:371-391 | All of the loop or none of it, then the flush; keeps the invariant |
| `CoordinationService.CoordinationService.AcknowledgeEach` | apps/server/src/coordination/service.ts:375-387 | The acknowledgement loop computes its recursive definition |
| `CoordinationService.CoordinationService.FlushHandoffs` | apps/server/src/coordination/service.ts:603-620 | The flush loop computes its recursive definition and keeps the invariant |
| `CoordinationService.CoordinationService.NotifySupervisor` | apps/server/src/coordination/service.ts:568-601 | One handoff per event, revision and reason; full inboxes hold it back |
| `CoordinationService.CoordinationService.Update` | apps/server/src/coordination/service.ts:201-253 | The whole update or, on any error, nothing; keeps the mail invariant |
| `CoordinationService.CoordinationService.CheckSupervisor` | apps/server/src/coordination/service.ts:212-220 | The supervisor walk with the two errors it can raise |
| `CoordinationService.CoordinationService.Dispatch` | apps/server/src/coordination/service.ts:406-437 | The whole dispatch or, on any error, nothing but the sweep; after a success the ID is recorded for exactly this request; keeps the invariant for a new ID |
| `CoordinationService.CoordinationService.UpdateTask` | apps/server/src/coordination/tasks.ts:13-29 | Merges, validates and stores a task record only when it differs |
| `CoordinationService.CoordinationService.AlertOverdueAwait` | apps/server/src/coordination/continuation.ts:62-81 | Announces a due wait and keeps the invariant; afterwards none is due |
| `CoordinationService.CoordinationService.SetAwaiting` | apps/server/src/coordination/continuation.ts:51-59 | Declares or cancels a wait, refused outside unattended work |
| `CoordinationService.CoordinationService.SetContinuation` | apps/server/src/coordination/continuation.ts:41-48 | Resets waits and recovery and keeps or replaces the supervisor |
| `CoordinationService.CoordinationService.Finish` | apps/server/src/coordination/service.ts:497-510 | Closes the assignment and its record and hands off, or changes nothing; afterwards it is finished, or there was an error |
| `CoordinationService.CoordinationService.Disconnect` | apps/server/src/coordination/service.ts:512-520 | Disconnects once and hands off unfinished work |
| `CoordinationService.CoordinationService.Register` | apps/server/src/coordination/service.ts:137-172 | Registers or resumes an assignment and binds a launched session |
| `CoordinationService.CoordinationService.HandleAll` | apps/server/src/coordination/service.ts:137-620 | Any calls in any order leave the object in the state of that run, so the theorems above hold of it; keeps the mail invariant |
| `WikiSearch.FocusedWindow` | apps/server/src/wiki/service.ts:25-54 | For hits sorted by start, the answer has the most distinct terms over all contiguous runs that fit the width, and the least span among those, although ends may be out of order and repeated leading terms are dropped early |
| `WikiSearch.MinimumWindow` | apps/server/src/wiki/service.ts:83-95 | The full-match loop finds the least start-to-start span of a run that covers every term, and where it starts |
| `WikiSearch.PushEnd` | apps/server/src/wiki/service.ts:39-43 | The monotone deque keeps the furthest end of the current run at its head |
| `WikiSearch.NothingLostRepeated` | apps/server/src/wiki/service.ts:45-46 | Dropping a repeated leading term loses no run that could be better |
| `WikiSearch.NothingLostTooWide` | apps/server/src/wiki/service.ts:44 | Dropping a leading hit whose run is too wide loses no run that fits |
| `WikiSearch.CurrentRunDominates` | apps/server/src/wiki/service.ts:47-51 | The run kept is at least as good as every run that ends here and fits |
| `WikiStore.WikiService.Write` | apps/server/src/wiki/service.ts:324-364 | Meets the write transaction with its order of errors |
| `WikiStore.WikiService.FollowReplacements` | apps/server/src/wiki/service.ts:336-347 | The replacement walk ends in every state and gives the verdict of its definition |
| `WikiStore.ReachableIsSound` | apps/server/src/wiki/service.ts:324-364 | Every reachable wiki has existing, ending replacement chains, and the current revision of a page is the newest of its revisions |
| `WikiStore.ReachableReplacementsAcyclic` | apps/server/src/wiki/service.ts:336-347 | In every wiki reachable from the empty one the replacements form no cycle and their targets exist |
| `WikiStore.ChangeReplacesItsBase` | apps/server/src/wiki/service.ts:348-360 | A write that changes anything replaced exactly the revision it was based on, appended one revision with its title, text and summary, and moved no other page |
| `WikiStore.WriteLeavesWhatWasAsked` | apps/server/src/wiki/service.ts:332-360 | A write that succeeds leaves the page with the text and replacement it asked for; a plain text edit keeps the replacement, a refused one everything, and no other page's replacement moves |
| `WikiStore.WriteSucceedsIff` | apps/server/src/wiki/service.ts:324-349 | A write succeeds exactly when it is within the limits, the replacement it names exists and does not lead back, and it is based on the current revision or changes nothing |
| `WikiStore.RevisionsOnlyGrow` | apps/server/src/wiki/service.ts:351-359 | Revisions are append-only and current revisions only rise |
| `WikiStore.StaleBaseNeverWins` | apps/server/src/wiki/service.ts:349 | A write based on a revision the page has moved past never changes it, whatever came in between |
| `WikiStore.OneWriterPerBase` | apps/server/src/wiki/service.ts:349 | Of two writes based on one revision at most one changes the page |
| `WikiStore.KeepIsNeverRefused` | apps/server/src/wiki/service.ts:334-347 | An edit that leaves the replacement alone is never refused because of it |
| `WikiStore.ReplacementChainEndsLive` | apps/server/src/wiki/service.ts:336-347 | Following replacements from any page ends at an existing page that nothing replaces |
| `SessionLaunchSafety.EndsAreAbsorbing` | apps/server/src/grants/session-launches.ts:178-186 | Completed, failed and cancelled are final under every interleaving, and a row keeps its other columns |
| `SessionLaunchSafety.InvocationIsAuthorized` | apps/server/src/grants/session-launches.ts:187-267 | A session action is called only from a live row it leaves starting, a launch or restart only from queued; at that call the named grant is active for the requester and its definition covers action and project |
| `SessionLaunchSafety.EndedRequestsAreNotInvoked` | apps/server/src/grants/session-launches.ts:178-267 | Once a request has ended its action is never called again |
| `SessionLaunchSafety.ReachableIsSafe` | apps/server/src/grants/session-launches.ts:163-273 | In every state reachable from the empty one a call under way belongs to a starting row, and a definition captured before an await is still that of its decided grant |
| `SessionLaunchSafety.CancelledRequestsAreNotCalled` | apps/server/src/grants/session-launches.ts:57-65 | For launches, restarts and closes: a successful cancel finds no call under way and allows none after it; before it the action was called if and only if the request was put back in the queue, and a launch or restart exactly as often |
| `SessionLaunchSafety.CalledIffPutBack` | apps/server/src/grants/session-launches.ts:163-273 | A request of any kind that is queued at the end of a run was called in it exactly if it was put back in it |
| `SessionLaunchSafety.ARefusedRequestWasCalled` | apps/server/src/grants/session-launches.ts:269-271 | A concrete run from the empty state in which a cancelled request had been called once and refused |
| `SessionLaunchSafety.LateCancelChangesNothing` | apps/server/src/grants/session-launches.ts:61-64 | Cancelling a request that is not queued changes nothing |
| `SessionLaunchSafety.CallsMatchStarts` | apps/server/src/grants/session-launches.ts:163-273 | Starts, calls and requeues of a launch or restart balance over every run; an interrupted close is called again from starting |
| `SessionLaunchSafety.GrantsAreFinal` | apps/server/src/grants/service.ts:195-229 | A decided grant keeps its definition for ever, and a revoked one stays revoked |
| `SessionLaunchSafety.RevokedGrantsAreNotUsed` | apps/server/src/grants/session-launches.ts:245-253 | After a revoke no request under that grant is called, even if its checks had all passed |
| `SessionLaunchSafety.StepIsSafe` | apps/server/src/grants/session-launches.ts:163-273 | Every step keeps that a captured definition is still that of the decided grant, and that a row being acted on is starting |
| `SessionLaunchOutcomes.CompletedOnlyIf` | apps/server/src/grants/session-launches.ts:189-272 | In any run a request becomes completed only when its action is answered as done, or when it was interrupted and its session is found bound and restorable, after a restart of a new epoch |
| `SessionLaunchOutcomes.FailedOnlyIf` | apps/server/src/grants/session-launches.ts:189-272 | It fails only when its action broke, its interrupted session is found to be over, or project or model cannot be looked up |
| `SessionLaunchOutcomes.CancelledOnlyIf` | apps/server/src/grants/session-launches.ts:57-65 | It is cancelled only by a caller who may while it is queued, because its requester or grant is gone, or because a check refuses it |
| `SessionLaunchOutcomes.ActionAnswers` | apps/server/src/grants/session-launches.ts:246-272 | Done makes it completed, broken failed, and refused queued again |
| `SessionLaunchOutcomes.InterruptedRow` | apps/server/src/grants/session-launches.ts:204-223 | What becomes of a row found starting, by what its session shows |
| `SessionLaunchOutcomes.ProjectAnswers` | apps/server/src/grants/session-launches.ts:224-249 | What becomes of a queued row once its project is known |
| `SessionLaunchOutcomes.CallsAreCovered` | apps/server/src/grants/session-launches.ts:187-267 | At each call the named grant is active, its assignment has not ended, it is for the requester, and it lists the action and the project |
| `SessionLaunchOutcomes.CallsUseListedModels` | apps/server/src/grants/session-launches.ts:232-240 | Under a grant limited to models a launch or restart is called only in the step that learned a listed model |
| `SessionLaunchOutcomes.CallsAreInEnabledProjects` | apps/server/src/grants/session-launches.ts:224-231 | and only in a project that is configured and enabled, when there is room |
| `SessionLaunchOutcomes.OnlyRunningRequestersAct` | apps/server/src/grants/session-launches.ts:189-223 | A close is called, and the checks of a launch or restart begin, only while the requester still runs |
| `SessionLaunchOutcomes.RequestIsQueuedIff` | apps/server/src/grants/session-launches.ts:154-161 | A request is queued exactly when its ID is new and the grant it names is active, for the requester and covers it |
| `SessionLaunchOutcomes.CancelTakesQueued` | apps/server/src/grants/session-launches.ts:57-65 | A cancel is answered for the requester only and takes exactly queued requests |
| `SessionLaunchOutcomes.NoWakeIsLost` | apps/server/src/grants/session-launches.ts:163-177 | A wake-up during a pass is followed by another pass before the loop rests, unless the server stops |
| `SessionLaunchOutcomes.SnapshotIff` | apps/server/src/grants/session-launches.ts:166-170 | A pass takes up exactly the live rows |
| `SessionLaunchOutcomes.StopEndsThePass` | apps/server/src/grants/session-launches.ts:163-175 | After stop the pass takes up no further row and none begins |
| `SessionLaunchOutcomes.HoldsIff` | apps/server/src/grants/service.ts:99-111 | An assignment holds a grant exactly when it is active, its ending assignment still runs, and it is addressed to it, its session, its project, or was inherited |
| `SessionLaunchOutcomes.DecisionSticks` | apps/server/src/grants/service.ts:195-214 | A pending grant becomes active when approved and denied otherwise, with the edited definition |
| `SessionLaunchOutcomes.GrantsAreEntered` | apps/server/src/grants/service.ts:153-231 | Recorded grants are active, requested ones pending, revoked ones revoked, and exactly the active ones that end with an assignment expire |
| `SessionLaunchService.AgentSessionLaunches.Update` | apps/server/src/grants/session-launches.ts:178-186 | The compare-and-set |
| `SessionLaunchService.AgentSessionLaunches.Cancel` | apps/server/src/grants/session-launches.ts:57-65 | Cancels a queued request, tells whether it is cancelled, and refuses other callers; a cancelled request is not being acted on |
| `SessionLaunchService.AgentSessionLaunches.Enqueue` | apps/server/src/grants/session-launches.ts:154-161 | Inserts a queued row under an unused ID when a held grant covers it |
| `SessionLaunchService.AgentSessionLaunches.Drain` | apps/server/src/grants/session-launches.ts:163-177 | Starts one pass over a snapshot of the live rows, or asks the running one for another |
| `SessionLaunchService.AgentSessionLaunches.NextRow` | apps/server/src/grants/session-launches.ts:166-175 | The drain loop between two rows |
| `SessionLaunchService.AgentSessionLaunches.ProcessClose` | apps/server/src/grants/session-launches.ts:189-203 | Authority, then the reservation, then the close, which is called only with a covering grant and a starting row |
| `SessionLaunchService.AgentSessionLaunches.Resume` | apps/server/src/grants/session-launches.ts:204-219 | What becomes of a row found starting |
| `SessionLaunchService.AgentSessionLaunches.CheckGrant` | apps/server/src/grants/session-launches.ts:220-223 | Requester and grant before the first await |
| `SessionLaunchService.AgentSessionLaunches.ProjectKnown` | apps/server/src/grants/session-launches.ts:224-235 | The checks after the project lookup |
| `SessionLaunchService.AgentSessionLaunches.Reserve` | apps/server/src/grants/session-launches.ts:236-249 | The wait for room, the reservation, and the last look at the grant |
| `SessionLaunchService.AgentSessionLaunches.ActionSettles` | apps/server/src/grants/session-launches.ts:246-272 | The end of a session action |
| `SessionLaunchService.AgentSessionLaunches.HandleAll` | apps/server/src/grants/session-launches.ts:57-273 | Any calls and stretches of both services, in any order, leave the objects in the state of that run, so the theorems above hold of them |
| `SessionLaunchService.GrantService.Decide` | apps/server/src/grants/service.ts:195-214 | Decides a pending grant only, with the edited definition if there is one |
| `SessionLaunchService.GrantService.Revoke` | apps/server/src/grants/service.ts:216-221 | Revokes a grant that exists; afterwards no assignment holds it |
| `SessionLaunchService.GrantService.ExpireForAssignment` | apps/server/src/grants/service.ts:223-231 | Expires exactly the active grants that end with the assignment; afterwards none is left |
| `TimelineMerge.FilterTranscriptBacked` | apps/server/src/sessions/timeline-merge.ts:198-214 | Index and earliest-live pre-filter keep exactly the live messages that a scan of the whole transcript keeps; an untimed live message is compared with untimed ones only |
| `TimelineMerge.CandidatesSuffice` | apps/server/src/sessions/timeline-merge.ts:145-182 | Own bucket, both neighbours and the untimed list find exactly what a scan finds |
| `TimelineMerge.RecentSuffices` | apps/server/src/sessions/timeline-merge.ts:202-211 | The pre-filter changes no answer |
| `TimelineMerge.BuildIndex` | apps/server/src/sessions/timeline-merge.ts:87-117 | Every comparable message is filed under its role and bucket, in order |
| `TimelineMerge.Dedupe` | apps/server/src/sessions/timeline-merge.ts:50-69 | Grouping first is the same as keep-first on the full key |
| `TimelineMerge.KeepFirstIsExact` | apps/server/src/sessions/timeline-merge.ts:45-49 | Keep-first loses no entry and leaves none twice |
| `TimelineMerge.EarliestLiveMs` | apps/server/src/sessions/timeline-merge.ts:184-196 | The least valid time, or none |
| `TimelineMerge.LatestMessage` | apps/server/src/sessions/timeline-merge.ts:216-230 | A message of the greatest valid time, or none when no time is valid |
| `TimelineMerge.Merge` | apps/server/src/sessions/timeline-merge.ts:255-281 | The merge as a whole |
| `TimelineMerge.RepeatsIff` | apps/server/src/sessions/timeline-merge.ts:119-182 | A live message repeats a transcript message exactly when both have text and one role, their times are at most ten minutes apart, and the texts are the same and long, the same within thirty seconds, or long with one inside the other |
| `TimelineMerge.SortIsStable` | apps/server/src/sessions/timeline-merge.ts:278 | Messages of the same time stay in the order in which they came |
| `TimelineMerge.KeepFirstGrows` | apps/server/src/sessions/timeline-merge.ts:45-49 | Of repeated entries the first is kept |
| `TimelineMerge.MergedShowsExactly` | apps/server/src/sessions/timeline-merge.ts:270-278 | The timeline is exactly the transcript and the live messages to be shown, each entry once: with a provider transcript the newer user inputs it does not repeat, without one what the user and the assistant said; in time order, or in that of the transcript when nothing is live |
| `TranscriptCache.CounterIsExact` | apps/server/src/lib/provider-conversation-cache.ts:32-63 | In every state reachable from the empty cache the byte counter is the sum of the cached sizes and within the cap, unless one entry alone exceeds it, and no key is cached twice |
| `TranscriptCache.InsertBoundsTheTotal` | apps/server/src/lib/provider-conversation-cache.ts:40-55 | An insertion leaves a tail of the recency order, cut no later than the cap asks for, within the cap or with the new entry alone |
| `TranscriptCache.GenerationNeverGoesBack` | apps/server/src/lib/provider-conversation-cache.ts:110-138 | In one step a key that stays cached keeps its entry or gets a newer parse |
| `TranscriptCache.GenerationsRise` | apps/server/src/lib/provider-conversation-cache.ts:110-138 | From any point of any run on, with parses finishing in any order, a key that stays cached never goes back to an older parse |
| `TranscriptAnswers.AnswersBelongToTheFile` | apps/server/src/lib/provider-conversation-cache.ts:87-148 | In any run a cached answer is what a parse of exactly this file found; a stale one needs the caller's leave, 8 MB and an earlier parse of the same file; otherwise the caller waits for a parse under way of this file as it is |
| `TranscriptAnswers.ParsedIsAnswered` | apps/server/src/lib/provider-conversation-cache.ts:134-145 | A finished parse is what the next load of the unchanged file gets, unless a later one is cached |
| `TranscriptAnswers.HitIff` | apps/server/src/lib/provider-conversation-cache.ts:92-104 | A load is answered from the cache exactly when the file is unchanged, and makes the entry the youngest |
| `TranscriptAnswers.StaleIff` | apps/server/src/lib/provider-conversation-cache.ts:90-110 | A stale conversation is given exactly when the caller allows it, the file has at least 8 MB and what is cached is an earlier reading of it |
| `TranscriptAnswers.ParseIsStarted` | apps/server/src/lib/provider-conversation-cache.ts:108-112 | Otherwise, and unless one under way is joined, a parse of the file as it is begins |
| `TranscriptAnswers.FailuresDropOnly` | apps/server/src/lib/provider-conversation-cache.ts:140-148 | Failures take away only the entry they may |
| `TranscriptCacheStore.TranscriptCache.InsertCacheEntry` | apps/server/src/lib/provider-conversation-cache.ts:40-55 | The eviction loop, by the counter, computes its recursive definition |
| `TranscriptCacheStore.TranscriptCache.DeleteCacheEntry` | apps/server/src/lib/provider-conversation-cache.ts:57-63 | Deletes a key and takes its size off the counter |
| `TranscriptCacheStore.TranscriptCache.RefreshCacheRecency` | apps/server/src/lib/provider-conversation-cache.ts:35-38 | Moves a key to the young end |
| `TranscriptCacheStore.TranscriptCache.Load` | apps/server/src/lib/provider-conversation-cache.ts:87-148 | Answers from the cache, with a stale conversation, or by joining or starting a parse |
| `TranscriptCacheStore.TranscriptCache.ParseDone` | apps/server/src/lib/provider-conversation-cache.ts:134-145 | Stores a parse unless a newer one is cached |
| `TranscriptCacheStore.TranscriptCache.ParseFailed` | apps/server/src/lib/provider-conversation-cache.ts:140-145 | A failed parse drops the entry only when it is the current one and there was none before |
| `TranscriptCacheStore.TranscriptCache.HandleAll` | apps/server/src/lib/provider-conversation-cache.ts:32-148 | Any loads and parse results, in any order, leave the object in the state of that run and within the cap |
| `InputQueue.ListIsExact` | apps/server/src/sessions/input-queue.ts:41-67 | After any puts the list holds, without duplicates and in the order they last became pending, exactly the submissions neither submitted nor cancelled, each with its record |
| `InputQueue.CancelledIsFinal` | apps/server/src/sessions/input-queue.ts:59-60 | A cancelled record never changes again |
| `InputQueue.RecordIsLastPut` | apps/server/src/sessions/input-queue.ts:57-66 | Unless the send was abandoned, a record is the last one put |
| `InputQueueService.InputQueue.Put` | apps/server/src/sessions/input-queue.ts:57-67 | The put transaction with its filter loop |
| `InputQueueService.InputQueue.List` | apps/server/src/sessions/input-queue.ts:47-49 | The records of the pending IDs, in order |
| `ImagePrompt.RoundTripIff` | apps/server/src/images/prompt.ts:17-63 | What imagePromptSuffix prints after a caption without trailing blanks is displayed again as that caption and those images exactly when no row holds the opening tag; captions may hold tags |
| `ImagePrompt.StrippingIsIdempotentIff` | apps/server/src/images/prompt.ts:42-50 | Stripping the instruction twice is stripping it once exactly when no second instruction line follows the first |
| `ImagePrompt.TwoInstructionsAreStrippedInTurn` | apps/server/src/images/prompt.ts:42-50 | A concrete text with two instruction lines that loses one at each call |
| `ImagePrompt.StrippingKeepsDisplayIff` | apps/server/src/images/prompt.ts:42-63 | Stripping leaves the display alone exactly when there is no instruction line or the lines behind it are one to four rows that all parse |
| `ImagePrompt.ARefusedRowIsDisplayedDifferently` | apps/server/src/images/prompt.ts:42-63 | A concrete text, an instruction line and a row that is no image, that is displayed differently once stripped |
| `ImagePrompt.StrippingChangesIff` | apps/server/src/images/prompt.ts:42-50 | Stripping changes a text exactly when its envelope opens with the instruction line |
| `ImagePrompt.EnvelopeIsEnclosed` | apps/server/src/images/prompt.ts:28-35 | Every text with an envelope is text, opening tag, body without that tag, closing tag, blanks |
| `ImagePrompt.EnclosedHasEnvelope` | apps/server/src/images/prompt.ts:28-35 | Every text of that shape has the envelope one reads off it |
| `SearchChunks.ChunkSearchableText` | apps/server/src/search/conversation-search.ts:84-114 | Ends; every chunk has 1 to 1200 characters; the chunks in order hold exactly the non-blank characters of the text, and exactly its words unless one is longer than 538 characters |
| `SearchChunks.SplitLongText` | apps/server/src/search/conversation-search.ts:63-82 | The same for one long paragraph, with one kind of blank |
| `SearchChunks.CutIsBehindLastSpace` | apps/server/src/search/conversation-search.ts:68-74 | The last space always wins over the sentence ends: a window is cut behind it, or at its end when it comes too early |
| `Pagination.PaginateMessages` | apps/server/src/routes/conversations.ts:103-139 | The page of every before and limit, with the loop that moves its start back to a run boundary |
| `Pagination.PagesAreTheList` | apps/server/src/routes/conversations.ts:116-137 | Following the older cursor from any end, the pages, oldest first, are the whole list before it |
| `Pagination.PagesGoBack` | apps/server/src/routes/conversations.ts:116-137 | Each page reaches further back, so the walk ends |
| `Pagination.PagesKeepRunsWhole` | apps/server/src/routes/conversations.ts:118-128 | No page begins inside a run of one speaker, holds fewer than limit messages unless it is the oldest, or reaches further back than it must |

## Left out

- CoordinationService.CoordinationService.Mail: the order of the rows by creation time and ID comes from the query; pending counts, mail
  notices and grant references are not part of the answer.
- CoordinationService.CoordinationService.Send: the receipt it returns is reduced to the error or its absence; the delivery note depends
  on processes and bound sessions.
- CoordinationService.CoordinationService.NotifySupervisor: the text of a handoff is a parameter.
- CoordinationService.CoordinationService.Register: tokens, process checks and what makes a session a launched one with a grant are an
  input.
- SessionLaunchService.AgentSessionLaunches.Enqueue: the checks `request` makes before its awaits (supervisor, owned session, enabled
  provider, model) only refuse more.
- SessionLaunchService.AgentSessionLaunches.Reserve: the memory floor and the session limit are one answer from outside.
- TimelineMerge.Merge: `localeCompare` is an order on timestamps given with each message.
- WikiStore.WikiService.Write: one repository; titles arrive normalised and lower-casing is that of ASCII; author, provenance, access
  log and backups are not kept.
- A crash between the two writes of the run recovery's `save`, and the direct reset of the failure column by a granted restart.
- The revision counter beside the input queue, which `put` does not touch.
- `isWorking`, child activity and published events of run recovery; several sessions at once, which share no key.
- `prepareContinuation` and `signalContinuation`: the recovery status of an assignment changes by itself here.
- Broadcasts, mail notices, status views, scopes and the Git and process checks of the coordination service.
- `migrateMessagePolicies`: runs start from an empty, already migrated store.
- `record`, `authorityContext` and `pauseUnsupportedSessions` of the grant service: they give or explain authority but do not change what a request may do.
- `imagePromptFiles`, and JSON itself: `parse` is any function that refuses blank rows and instruction lines and ignores leading blanks.
- Regular expressions, Unicode normalisation and prose sanitising: texts arrive normalised, searches as term hits.
- Transcript parsing; ranking beyond the two window scans; SQL, HTTP, sockets, files and the user interface.
- Liveness: a timer may fire late or never, and only safety is proved.
