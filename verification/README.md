# Guarded agent runner: a verified model

This project models the four parts of the guarded agent runner in which a wrong
step is expensive, and proves what they promise for every input, every
interleaving and every reachable state.

1. **The durable change workflow.** An approved intent is driven through S00-S05
   (claim, revalidate, maintenance, graceful stop, offline revalidation, backup)
   against a journal. Coordinators may crash after any commit, lose the answer of
   a commit, be revoked midway, or run in several copies at once.
   `Domain` holds the vocabulary and the evidence rules, `Journal` each immediate
   transaction as a function on a journal value, `Store` the same transactions as
   a class that rewrites its tables in place, `JournalSafety` what every client of
   the store can rely on, and `Guards` when exactly a transaction commits. `Workflow` is the state machine of any number
   of coordinators, inspectors, operators and one archive directory; `AtMostOnce`,
   `Progress`, `BackupProtocol`, `BackupBinding`, `SoleRun`, `StepRecords` and
   `StopRecords` prove its invariants, and `Reachability` that it does reach its ends. `PaperStop` and
   `DockerLog` are the target's side of a stop, and `PaperRuns` joins it to whole
   runs of the workflow.
2. **The admission gate.** `Admission` is the leased state file and the access
   decision, `Gate` the connection table and its interleavings, `GateSafety` the
   guarantees.
3. **The legacy runner.** `Capability` is the scope order and the policy,
   `RunnerState` the books of runs, approvals and executor calls, `RunnerService`
   the stateful loops, `RunnerHistory` every sequence of requests.
4. **Codecs and the archive.** `Protocol` is the Minecraft framing, `DockerLog`
   the Docker log framing, `Archive` the bounded tree walk.

## How the model is built

- Every store method of the original is one immediate transaction, so a method of
  `Store.Store` is proved equal to a transaction function of `Journal`, and the
  workflow takes these functions as atomic steps. `PutIntent` is the exception
  (lookup, insert, lookup) and has its own lemma about a race.
- `Foundation.Run`, `Engine.Create`, `Engine.Inspect` and the gate's handlers are
  state machines instead of methods: their claims are about interleavings, so the
  program counter and the stale local reads of each participant are part of the
  state. One action takes one participant past one durable effect.
- SHA-256 over canonical JSON is a function parameter (`Digests`, `Hash`): no
  theorem depends on how it hashes. Random identifiers are arguments, and a clash
  is the primary-key error of the table. Clocks, Docker, the target, the disk and
  time-stamp parsing are arguments or oracles.
- Times are integers in nanoseconds, with 0 for the zero time.

## Where the obvious claim is false

- Terminal operation statuses are not absorbing. `TerminalStatusIsNotAbsorbing`
  reaches a journal where FAILED becomes UNKNOWN;
  `TerminalStatusLeavesOnlyByObservation` says exactly when a status is left: an
  unknown or other effect is recorded for a step that may have been dispatched.
- A VALID backup does not imply a complete S05. Two families of runs break it. In
  `LostAnswerIsReachable` one coordinator alone loses the answer of the completing
  commit and cannot read the journal again. In `RaceIsReachable` a second
  coordinator gives up on the pending S05, the first completes it and returns
  success, and the second then records what it had decided. They are the whole of
  it: `UndoneExactlyByGivingUp` and `ValidButIncompleteIff` prove that a complete S05
  is undone if and only if a coordinator that had given it up records so.
- A pass over a closed gate does not close every client that was there:
  `LeavingClientOutlivesPass`. Every live session from before the snapshot is closed
  (`PassClosesEarlierSessions`), and `OpenAfterPassIff` says exactly which clients
  stay open: those that have left the table without having forwarded, and that
  nobody's pass has swept.
- An executor call is not always made on an approval that is unexpired at the call.
  The approval is checked, then a status query is awaited, then the executor is
  called: `CallOnLapsedApproval`. `ServeAll` proves that it was unexpired at the
  check; `UnexpiredThroughoutIff` says that it holds for every duration of the query
  if and only if more than the query's timeout is left at the check.
- The hash of a capability scope does not fix its modes: `EqualHashDifferentModes`,
  with the exact condition in `SamePayloadSameModes`.
- A scope can be saved again unchanged exactly if every allowed action has a rule:
  `BelowItselfIff`.
- `run_until_blocked` fails on an empty plan although the run completed; the
  contract of `RunUntilBlocked` says that this is the only such case.
- Packets and strings are read back exactly up to 1 MiB: `PacketReadsBack`,
  `StringReadsBack`, including lengths that wrap around in 32 bits.

## Model

| member | source | states |
|---|---|---|
| `Domain.ReadyEvidenceTellsOneTimeline` | internal/domain/backup.go:40-150 | accepted ready evidence orders the last player check, the request, the exit, the observation and the offline check within their five-second windows, for the same boot, step and frozen deployment, with the root there and no other writer at both looks |
| `Domain.SafetyIff` | internal/domain/backup.go:88-116 | an observation is accepted if and only if it is available, recent and complete, shows the enrolled deployment as frozen, no conflicting writer and an existing root; stale and busy targets have their own errors |
| `Domain.ReadyIff` | internal/domain/backup.go:118-150 | ready evidence is accepted if and only if intent, operation, S03, both observations and a clean correlated stop agree, field by field |
| `Store.Store.constructor` | internal/store/store.go:140-216 | a new journal is empty |
| `Store.Store.PutIntent` | internal/store/store.go:290-342 | stores a new proposal, returns the frozen one for a repeated client key, refuses a changed one |
| `Store.Store.ApproveIntent` | internal/store/store.go:374-471 | one transaction writes the decision, the queued operation and the consumed intent, or returns the existing pair, or changes nothing |
| `Store.Store.FindOwner` | internal/store/store.go:645-661 | answers as the index of unreleased operations does |
| `Store.Store.RejectIntent` | internal/store/store.go:503-559 | writes the only decision of an awaiting intent, or returns the earlier rejection |
| `Store.Store.RevokeIntent` | internal/store/store.go:561-609 | closes the intent and aborts only a queued writer without attempts |
| `Store.Store.PrepareStep` | internal/store/store.go:711-788 | appends the next fixed step only after all earlier ones are complete, with its row |
| `Store.Store.PreviousComplete` | internal/store/store.go:747-754 | every earlier attempt is acknowledged, expected and correlated |
| `Store.Store.NumberAttempt` | internal/store/store.go:755-760 | the next attempt number of a step kind |
| `Store.Store.FindAttempt` | internal/store/store.go:864-873 | the first attempt with the step ID |
| `Store.Store.MarkDispatchPossible` | internal/store/store.go:790-805 | makes an untouched attempt possibly dispatched, and only under a consumed intent |
| `Store.Store.RecordStepObservation` | internal/store/store.go:807-903 | writes effect, attribution and evidence, and the status the effect names |
| `Store.Store.MarkUnknown` | internal/store/store.go:905-931 | moves to UNKNOWN where the table allows it |
| `Store.Store.TransitionOperation` | internal/store/store.go:933-973 | moves along the table, and to success only with a passed verification and released maintenance |
| `Store.Store.ReserveBackup` | internal/store/backup.go:32-83 | inserts a matching record for a dispatched S05, once per operation and ID |
| `Store.Store.TransitionBackup` | internal/store/backup.go:87-124 | moves along the backup table, never to VALID |
| `Store.Store.CompleteBackup` | internal/store/backup.go:128-201 | makes the record VALID and S05 complete in one transaction, or changes nothing |
| `JournalSafety.CallGood` | internal/store/store.go:290-973 | every store call keeps the tables consistent and moves them only forward |
| `JournalSafety.CallsGood` | internal/store/store.go:290-973 | so does every sequence of calls |
| `JournalSafety.ReachableJournals` | internal/store/store.go:140-973 | every reachable journal is consistent and evolves forward |
| `JournalSafety.OneWriterPerEnrollment` | internal/store/store.go:419-424 | at most one unreleased operation per enrollment; a released one is never reacquired and gets no new dispatch |
| `JournalSafety.UnresolvedIsATrap` | internal/store/store.go:645-661 | an unreleased UNKNOWN or NEEDS_INTERVENTION operation stays so under every call, gets no step, dispatch or backup, and keeps other operations off its enrollment |
| `JournalSafety.AuthorityMovesOneWay` | internal/store/store.go:374-609 | frozen bytes never change, one decision, an operation exactly for an approval |
| `JournalSafety.RevocationIsFinal` | internal/store/store.go:740-742 | after a revocation no attempt is prepared or becomes possibly dispatched |
| `JournalSafety.RevocationReleasesOnlyQueued` | internal/store/store.go:561-609 | a revocation releases exactly a queued writer without attempts |
| `JournalSafety.ApprovalsAgree` | internal/store/store.go:374-501 | repeated approvals with the right digest return the same decision and operation |
| `JournalSafety.RacedPutIsAtomic` | internal/store/store.go:290-342 | a raced PutIntent answers as one undisturbed call at the last lookup |
| `JournalSafety.ProposalsAreIdempotent` | internal/store/store.go:290-342 | a client key names one proposal forever |
| `JournalSafety.ValidBackupIsForever` | internal/store/backup.go:128-201 | a VALID record never changes and tells one timeline |
| `JournalSafety.FinalBackupIsForever` | internal/store/backup.go:87-124 | a VALID, FAILED, UNKNOWN or ORPHANED record never changes again under any calls |
| `JournalSafety.ActiveOwnerReadsPayloads` | internal/store/store.go:645-661 | the owner check on columns decides as the payloads do |
| `JournalSafety.DispatchGuardReadsPayloads` | internal/store/store.go:836-903 | the dispatch guard, which reads the status column and the operation's copy of the step, succeeds exactly if the intent payload, the operation payload and the step row allow it |
| `JournalSafety.TerminalStatusLeavesOnlyByObservation` | internal/store/store.go:876-903 | a call takes an operation out of a terminal status if and only if it records an unknown effect, or another effect unless the status is NEEDS_INTERVENTION, for a found step that may have been dispatched |
| `Guards.FirstApprovalIff` | internal/store/store.go:374-471 | a first approval is granted if and only if the intent is stored, its genuine digest is named, both deadlines are ahead, it awaits approval, its enrollment is free and the identifiers are unused; the first guard that fails names the error |
| `Guards.RepeatedApprovalIff` | internal/store/store.go:386-394 | approving again answers with the stored pair if and only if the first decision approved the digest named now, with the error otherwise |
| `Guards.RejectIff` | internal/store/store.go:503-559 | a rejection is written if and only if the intent is stored, genuine and awaiting and the identifier unused, and repeated if and only if the same digest was rejected |
| `Guards.RevokeIff` | internal/store/store.go:561-609 | a revocation commits if and only if the intent is stored, genuine and not closed |
| `Guards.ApprovedInTime` | internal/store/store.go:410-413 | in every journal any calls can reach, an approval was decided before the approval deadline and the start deadline of its intent, on its digest |
| `Guards.PrepareIff` | internal/store/store.go:711-788 | a step is prepared if and only if it is the next of S00-S05 of a consumed genuine intent and all earlier ones are complete, with the error of each guard; it is appended untouched |
| `Guards.RecordIff` | internal/store/store.go:807-903 | an observation is recorded if and only if its step is found, may have been dispatched and the effect is known; what the attempt holds then |
| `Guards.TransitionIff` | internal/store/store.go:933-973 | a transition commits if and only if it is one of the listed moves, and to success only with a passed verification and released maintenance |
| `Guards.MarkUnknownIff` | internal/store/store.go:905-931 | an operation becomes UNKNOWN if and only if the moves allow it, keeping its attempts and its target |
| `Guards.SucceededIsVerified` | internal/store/store.go:933-973 | whoever calls, a succeeded operation has a passed verification and is released |
| `Guards.BackupsNameTheirIntent` | internal/store/backup.go:32-201 | whoever calls, every backup record names the frozen intent, deployment, recipe and S05 of its operation, and tells of a clean stop by its S03 |
| `Guards.ReserveIff` | internal/store/backup.go:32-83 | a backup is reserved if and only if its S05 is dispatched on a running owner, its evidence is ready, and the record names the intent, is blank, recent and the first |
| `Guards.MoveBackupIff` | internal/store/backup.go:87-124 | a backup moves if and only if along the listed moves, none of which leads to VALID |
| `Guards.CompleteIff` | internal/store/backup.go:128-201 | a backup is completed if and only if it is being verified, its S05 is still open on a running owner, and evidence, digest and size are good |
| `Counterexamples.TerminalStatusIsNotAbsorbing` | internal/store/store.go:874-886 | a reachable FAILED operation becomes UNKNOWN |
| `AtMostOnce.NextIsSafe` | internal/workflow/foundation.go:80-284 | every action of anyone keeps the log of external actions and the permits to dispatch in order |
| `AtMostOnce.ExternalActionsHappenAtMostOnce` | internal/workflow/foundation.go:135-281 | each operation closes admission, stops the server and creates a backup at most once, over all interleavings and store clients |
| `AtMostOnce.DispatchIsDurableFirst` | internal/workflow/foundation.go:188-198 | every external action was durable as possibly dispatched, for its own step |
| `Progress.NextIsOrderly` | internal/workflow/foundation.go:135-281 | every action of coordinators and operators keeps the shape of operations and who may finish a step |
| `Progress.AttemptsAreAPrefix` | internal/workflow/foundation.go:143-160 | attempts are a prefix of S00-S05, and all but the last are complete unless the operation is unresolved |
| `BackupProtocol.NextIsArchived` | internal/backup/offline.go:120-241 | every action keeps records, files, creators and inspectors in agreement |
| `BackupProtocol.ValidMeansReread` | internal/backup/offline.go:187-241 | the digest of a VALID record is that of the bytes written and of the bytes read back, and the size matches |
| `BackupProtocol.FinalArchiveNeedsRecord` | internal/backup/offline.go:198-218 | a final archive exists only from FINALIZING on, and an orphaned or VALID record only beside one |
| `BackupProtocol.CreateSucceedsOnce` | internal/backup/offline.go:120-241 | at most one Create per backup ID returns success, and the record stays VALID |
| `BackupProtocol.AbandonedForever` | internal/backup/offline.go:117-241 | a backup without a creator that is not VALID is never promoted or taken over |
| `BackupProtocol.StoppingAbandons` | internal/backup/offline.go:117-241 | a creator that stops anywhere leaves a VALID or an abandoned backup |
| `BackupProtocol.FinalArchiveIsNeverOverwritten` | internal/backup/offline.go:168-212 | no step of the engine removes or rewrites a final archive |
| `BackupBinding.CallKeepsLinks` | internal/store/backup.go:32-201 | every coordinator call keeps S05 and its backup bound to each other |
| `BackupBinding.CompleteExactlyWithValidBackup` | internal/store/backup.go:146-200 | in every run a complete S05 has its reserved VALID backup, made by that step, and on an operation that is not unresolved the converse holds too |
| `BackupBinding.CompletedOnlyByItsBackup` | internal/workflow/foundation.go:247-281 | S05 becomes complete only in the step in which its backup goes from VERIFYING to VALID |
| `BackupBinding.UndoneExactlyByGivingUp` | internal/workflow/foundation.go:372-380 | a complete S05 becomes incomplete in a step if and only if a coordinator that had given it up records that |
| `BackupBinding.ValidButIncompleteIff` | internal/workflow/foundation.go:258-267 | after a run the backup is VALID and S05 incomplete if and only if S05 was given up after it was complete; the operation is then unresolved |
| `BackupBinding.LostAnswerOutlivesS05` | internal/workflow/foundation.go:258-267 | from any state after a lost completing answer, a failed re-read leaves a VALID backup beside an unknown S05 |
| `SoleRun.NextKeepsSingle` | internal/workflow/foundation.go:80-284 | what a sole coordinator may conclude survives every action of others |
| `SoleRun.SuccessMeansBackedUp` | internal/workflow/foundation.go:247-284 | Run returning without error means six complete attempts, EXECUTING, ownership kept, verification not started and a VALID backup matching the archive on disk |
| `StepRecords.NextIsFounded` | internal/workflow/foundation.go:135-281 | every action of coordinators and operators keeps each place founded on what its check accepted and each complete step on its evidence |
| `StepRecords.DispatchedOnlyWhenSafe` | internal/workflow/foundation.go:168-198 | in every run a coordinator that marks or dispatches S01-S03 holds an observation of the frozen deployment with the server up, from S02 on without players, at S03 closed under maintenance; for S04 and S05 the server is down after a clean stop |
| `StepRecords.CompleteStepsHaveEvidence` | internal/workflow/foundation.go:200-278 | in every run each complete step S00-S04 holds exactly the evidence it calls for, about its operation, step and intent |
| `StepRecords.CheckPassesIff` | internal/workflow/foundation.go:168-190 | a checked step is marked next if and only if the target answers and the conditions of its step hold, field by field; nothing durable changes |
| `StepRecords.MaintenanceRecordedIff` | internal/workflow/foundation.go:320-339 | S02 is recorded if and only if the receipt is for this step, between the request and now, recent, and a valid look shows the server closed, in maintenance and empty |
| `StepRecords.TakenUpIff` | internal/workflow/foundation.go:80-134 | a loaded operation is taken up if and only if its intent is genuine, approved, with the fixed steps, in budget and before the start deadline where that applies |
| `StepRecords.RunResumesWhere` | internal/workflow/foundation.go:135-160 | a run stops at an unresolved operation, skips complete steps, prepares a missing one, and gives up on one that may have been dispatched |
| `StepRecords.StopDispatchIff` | internal/workflow/foundation.go:217-225 | a refused stop request is given up, an accepted one awaited; both are logged |
| `StepRecords.StopOutcomeIff` | internal/workflow/foundation.go:226-243 | when an answered stop is recorded as ours, as a failure, as unattributed, or given up |
| `StepRecords.CreateLooksIff` | internal/backup/offline.go:120-235 | Create reserves, and later asks for completion, if and only if a fresh look shows the server down, with no final archive at first |
| `StepRecords.CreateOpensIff` | internal/backup/offline.go:168-186 | Create opens its partial file if and only if none is there |
| `StepRecords.FailedCreateIff` | internal/workflow/foundation.go:258-267 | after a failed Create the run ends quietly if and only if S05 reads back as expected and correlated |
| `Reachability.SuccessIsReachable` | internal/workflow/foundation.go:80-284 | every workable intent is driven by one coordinator from the empty journal through S00-S05 to success, with a complete S05 and its VALID backup |
| `Reachability.LostAnswerIsReachable` | internal/workflow/foundation.go:258-267 | one coordinator alone reaches a VALID backup beside an unresolved, incomplete S05 |
| `Reachability.RaceIsReachable` | internal/workflow/foundation.go:144-150 | two coordinators reach it without a lost answer, after one of them has returned success |
| `Reachability.SomeWorldIsWorkable` | internal/workflow/foundation.go:80-132 | such intents exist |
| `StopRecords.NextKeepsStops` | internal/workflow/foundation.go:217-243 | every action of coordinators and operators keeps each complete S03, and each coordinator about to record one, vouched for by an accepted stop |
| `StopRecords.CompleteStopIsConfirmed` | internal/workflow/foundation.go:217-243 | in every run a complete S03 holds one ready record whose stop names this operation, this step and the server of its intent, is confirmed, is still confirmed where S04 and S05 read it, and was dispatched; before it the server was up, empty and closed under maintenance |
| `PaperRuns.PaperRefines` | internal/adapters/paperops/target.go:151-201 | a run against the Paper target is a run of the workflow |
| `PaperRuns.RecordsExactlyTheProven` | internal/workflow/foundation.go:217-243 | an answer of the target leads to recording the stop if and only if its process remembers this request and the poll proves it |
| `PaperRuns.CompleteStopIsProven` | internal/adapters/paperops/target.go:151-201 | in every run against the target, over process restarts, a complete S03 holds a stop that one poll proves to be the effect of this step's request, which Docker had acknowledged to the accepting process |
| `PaperStop.Target.constructor` | internal/adapters/paperops/target.go:31-60 | a new process has acknowledged nothing |
| `PaperStop.Target.DispatchGracefulStop` | internal/adapters/paperops/target.go:151-163 | a request is remembered exactly if it matches the enrollment and Docker acknowledged the stop |
| `PaperStop.Target.ObserveStop` | internal/adapters/paperops/target.go:165-201 | the evidence of one observation, correlated only with the acknowledged request |
| `PaperStop.Target.WaitStopped` | internal/workflow/foundation.go:341-370 | the first deciding observation decides, and only a confirmed one is accepted |
| `PaperStop.Target.StopAndWait` | internal/workflow/foundation.go:217-243 | an accepted stop was acknowledged to this process in this step and is proven by one observation |
| `PaperStop.ConfirmedExactlyIfProven` | internal/adapters/paperops/target.go:165-201 | confirmed if and only if acknowledged here, clean exit, terminal snapshot between request and exit, and all log markers since the request |
| `PaperStop.AcceptedStaysConfirmed` | internal/domain/backup.go:118-150 | accepted evidence is still confirmed when S04 and S05 classify it again |
| `PaperStop.RecordedStopIsProven` | internal/workflow/foundation.go:217-243 | in the step that decides to record S03 as expected and correlated, the stop is proven to be its own; `CompleteStopIsProven` says it of the recorded row over whole runs |
| `DockerLog.DockerLogText` | internal/adapters/host/lifecycle.go:172-189 | the loop computes the text of a framed or plain log |
| `DockerLog.ParseInvertsEncode` | internal/adapters/host/lifecycle.go:172-189 | deframing a stream of frames gives those frames |
| `DockerLog.EncodeInvertsParse` | internal/adapters/host/lifecycle.go:172-189 | a stream that deframes consists of exactly those frames |
| `DockerLog.TextIsContents` | internal/adapters/host/lifecycle.go:172-189 | a multiplexed log has a text exactly if it is a sequence of frames, and the text is their contents |
| `DockerLog.LinesCutAtNewlines` | internal/adapters/host/lifecycle.go:140-143 | the scanned lines joined again are the text |
| `DockerLog.ScanLines` | internal/adapters/host/lifecycle.go:141-161 | the markers found are those shown by some line; a line of 1 MiB or more fails the scan |
| `DockerLog.FindMarkers` | internal/adapters/host/lifecycle.go:143-158 | a line counts only with a readable stamp at or after the request |
| `DockerLog.GracefulStopReferences` | internal/adapters/host/lifecycle.go:125-168 | the three references exactly if every marker is shown since the request |
| `DockerLog.ShowsIff` | internal/adapters/host/lifecycle.go:143-158 | a line shows a marker if and only if it is a readable stamp at or after the request, a space, and a text with the marker after any prefix |
| `DockerLog.GracefulStopIff` | internal/adapters/host/lifecycle.go:125-168 | a log proves a graceful stop if and only if it is readable, has no overlong line, and says since the request that the server stops, the worlds are saved and the runner is done |
| `Admission.OpenExactlyOnConfirmedLease` | internal/admission/runtime.go:35-60 | access is open exactly on an unexpired matching lease of at most thirty seconds that a ready guard of this pairing, with its schema and boot, confirms within three seconds |
| `Admission.StateFile.constructor` | internal/admission/state.go:44-51 | a state file as found, before anything is written |
| `Admission.StateFile.WriteState` | internal/admission/state.go:74-137 | which states are accepted, what reaches the file, and that a late failure is reported although it did |
| `Admission.LeaseOpensExactlyItsWindow` | internal/admission/state.go:44-72 | a lease written at t opens admission exactly until it runs out |
| `Admission.ClosedStaysClosed` | internal/admission/state.go:56-58 | a CLOSED state never lets anyone in |
| `Gate.Registry.constructor` | internal/admission/gate.go:22-33 | an empty table |
| `Gate.EndUndoesStart` | internal/admission/gate.go:160-177 | ending the session that was just started gives the table back |
| `Gate.Registry.StartSession` | internal/admission/gate.go:160-169 | a new client becomes a session exactly if fewer than the limit are served; the count stays the number of sessions |
| `Gate.Registry.EndSession` | internal/admission/gate.go:171-177 | exactly this session ends, one fewer is served, its client is closed, and every other connection stays |
| `Gate.Registry.TrackUpstream` | internal/admission/gate.go:179-183 | an upstream connection is tracked without changing the sessions or their count |
| `Gate.Registry.UntrackUpstream` | internal/admission/gate.go:185-189 | an upstream connection is dropped without changing the sessions or their count |
| `Gate.Registry.CloseAll` | internal/admission/gate.go:191-201 | closes exactly what the table held when it began |
| `GateSafety.NextIsGood` | internal/admission/gate.go:87-201 | every action keeps table, sessions, passes and decisions in agreement |
| `GateSafety.SessionsAreCounted` | internal/admission/gate.go:160-177 | the count equals the live sessions and never exceeds the limit |
| `GateSafety.ForwardingIsTracked` | internal/admission/gate.go:125-158 | a forwarding session has both connections tracked, and nothing else is tracked but live sessions |
| `GateSafety.PassClosesEarlierSessions` | internal/admission/gate.go:191-201 | when a pass ends every live session from before its snapshot has its client closed; one that was let through and is open was let through later on an OPEN lease |
| `GateSafety.OpenAfterPassIff` | internal/admission/gate.go:171-201 | a client admitted before the snapshot is open after the pass if and only if its handler has left the table without forwarding and no pass has swept it |
| `GateSafety.MonitorStartsPassIff` | internal/admission/gate.go:87-106 | a poll starts a pass if and only if access is not open then, and touches nothing else |
| `GateSafety.ClosedPollEndsSessions` | internal/admission/gate.go:87-106 | after a poll that finds access closed, once its pass is swept, every session admitted before the poll has its client closed, in every run |
| `GateSafety.OpenGateSweepsNobody` | internal/admission/gate.go:87-106 | in a run without shutdown whose polls all find access open there is no pass, and connections are closed only by their own handlers |
| `GateSafety.PassCanBeSwept` | internal/admission/gate.go:191-201 | from every state a pass that has begun can be swept to its end |
| `GateSafety.ClientIsLetThroughIff` | internal/admission/gate.go:125-139 | an admitted client is let through if and only if access is open then |
| `GateSafety.ForwardingIsReachable` | internal/admission/gate.go:125-158 | on a confirmed lease a client does come to forward |
| `GateSafety.ClosedPassLeavesNobody` | internal/admission/gate.go:87-106 | if nothing OPEN was in force since the snapshot, no forwarding client stays open |
| `GateSafety.OpenDecisionNeedsOpenLease` | internal/admission/state.go:44-137 | an open decision means the last state written is an OPEN lease issued less than thirty seconds before |
| `GateSafety.LeavingClientOutlivesPass` | internal/admission/gate.go:171-177 | a client that has left the table can stay open through a whole pass |
| `Capability.IsSubsetOf` | guarded_agent_runner/models.py:141-154 | the action-by-action check decides the scope order |
| `Capability.BelowIsTransitive` | guarded_agent_runner/models.py:141-154 | the scope order is transitive |
| `Capability.BelowItselfIff` | guarded_agent_runner/models.py:141-154 | a scope is below itself exactly if every allowed action has a rule |
| `Capability.DecisionIff` | guarded_agent_runner/policy/policy_engine.py:19-63 | when the policy allows, asks for approval or denies, and for which reason, on the fields of scope and call: an allowed call has a sealed scope, a known allowed action, exactly its arguments and a service in the scope |
| `Capability.CompiledScopeAllows` | guarded_agent_runner/capability.py:12-26 | the scope of a run allows reading its own service, and restarting it automatically exactly for nginx; nothing on another service |
| `Capability.ShrinkingKeepsApprovals` | guarded_agent_runner/policy/policy_engine.py:19-63 | what a smaller scope allows automatically, a larger one allows too exactly if it is sealed |
| `Capability.StoredScopeOnlyShrinks` | guarded_agent_runner/storage/repository.py:55-64 | over any saves the stored scope is an earlier one or a sealed scope below it |
| `Capability.ApprovalsAreNeverWeakened` | guarded_agent_runner/storage/repository.py:55-64 | a call allowed automatically later was allowed by every sealed earlier scope |
| `Capability.SamePayloadSameModes` | guarded_agent_runner/models.py:124-139 | equal hashed payloads mean equal modes exactly if no action's first rule disagrees with its last |
| `Capability.DistinctIsUnambiguous` | guarded_agent_runner/models.py:124-139 | distinct rule actions are enough for that |
| `Capability.EqualHashDifferentModes` | guarded_agent_runner/models.py:124-139 | two scopes with one hash, of which one requires approval |
| `Capability.CompiledScopeIsSettled` | guarded_agent_runner/capability.py:12-26 | a compiled scope is sealed and can be saved again |
| `RunnerState.TerminalHasNoWayOut` | guarded_agent_runner/run.py:8-38 | the terminal statuses are those without an allowed transition |
| `RunnerState.ApprovalRequested` | guarded_agent_runner/service.py:219-227 | a newly requested approval keeps the books |
| `RunnerState.ApprovalDecided` | guarded_agent_runner/service.py:392-466 | a decision keeps the books |
| `RunnerState.CallExecuted` | guarded_agent_runner/service.py:344-360 | an executor call backed at its check, on an unspent approval, keeps the books |
| `RunnerState.UnexpiredThroughoutIff` | guarded_agent_runner/service.py:291-323 | an approval that passed its check is unexpired at the call for every duration of the awaited query if and only if more than its timeout is left |
| `RunnerHistory.ServeAll` | guarded_agent_runner/service.py:76-466 | from the start and over every sequence of requests: each executor call stays inside the services, actions and rules of its run's scope; one of a REQUIRED action has an approval granted, unexpired when checked on an authorized unexpired run, bound to its run, action, arguments, resource and scope hash, with status, pid and generation observed as approved; and no approval backs two calls |
| `RunnerHistory.CallOnLapsedApproval` | guarded_agent_runner/service.py:280-323 | a history in which the approval lapses between its check and the executor call |
| `RunnerService.ConditionalRemediationSkip` | guarded_agent_runner/service.py:246-278 | skips exactly if the service was last seen running and no evidence is alarming |
| `RunnerService.AlarmingIff` | guarded_agent_runner/service.py:246-278 | a line alarms if and only if, in any case, one of the five words occurs in it |
| `RunnerService.PreconditionIsNewest` | guarded_agent_runner/approval.py:19-26 | the precondition of an approval is the result of the last status call that has one |
| `RunnerService.Service.constructor` | guarded_agent_runner/service.py:46-64 | empty books |
| `RunnerService.Service.SaveRun` | guarded_agent_runner/storage/repository.py:55-64 | a known run is stored only with a sealed scope below the stored one |
| `RunnerService.Service.LatestApprovalForRun` | guarded_agent_runner/storage/repository.py:94-103 | the newest approval of the run |
| `RunnerService.AdvancedGoesOnward` | guarded_agent_runner/service.py:167-244 | a step blocks the run or brings it one action nearer to the end of its plan, with the scope unchanged |
| `RunnerService.Service.RevalidateApproval` | guarded_agent_runner/approval.py:40-72 | no failure if and only if the run and approval are unexpired and the approval is granted, bound to run, action, arguments, resource and scope with an intact binding, and still required |
| `RunnerService.Service.Execute` | guarded_agent_runner/service.py:344-390 | logs exactly one call, with when its approval was checked and when it is made, exactly if the action names a resource; moves one step on or ends the run |
| `RunnerService.Service.Request` | guarded_agent_runner/approval.py:16-37 | a pending approval bound to the pending action that does not outlive the run |
| `RunnerService.Service.Advance` | guarded_agent_runner/service.py:167-244 | one step: skipped, executed automatically, put on hold, or failed; never an invalid transition of a planned run |
| `RunnerService.Service.ResumeAfterApproval` | guarded_agent_runner/service.py:280-342 | if the newest approval revalidates and status, pid or generation reads differently from what was approved, nothing is called and the run ends STALE; if all three agree the first new call is the approved one, logged with both times and the observation; otherwise nothing is called; the run ends blocked |
| `RunnerService.Service.ExecuteApproved` | guarded_agent_runner/service.py:317-342 | after a passed check the first call is the approved one, whatever the time is by then, and the run ends blocked |
| `RunnerService.Service.Continue` | guarded_agent_runner/service.py:325-342 | the resume loop blocks within its bound, so its last error is unreachable |
| `RunnerService.Service.FailExpired` | guarded_agent_runner/service.py:475-480 | expires a planned or running run |
| `RunnerService.Service.FailResume` | guarded_agent_runner/service.py:482-498 | ends a running or approved run |
| `RunnerService.Service.FailStale` | guarded_agent_runner/service.py:500-523 | ends an approved run as stale |
| `RunnerService.Service.Step` | guarded_agent_runner/service.py:124-147 | raises exactly for unknown, blocked and unplanned runs, and otherwise blocks or moves on |
| `RunnerService.Service.RunUntilBlocked` | guarded_agent_runner/service.py:149-165 | blocks within one step per planned action; fails only on an empty plan |
| `RunnerService.Service.Approve` | guarded_agent_runner/service.py:392-439 | grants exactly a pending unexpired approval and lets its run resume |
| `RunnerService.Service.Reject` | guarded_agent_runner/service.py:441-466 | refuses exactly a pending approval and ends its run |
| `RunnerService.Service.CreateRun` | guarded_agent_runner/service.py:76-110 | a planned run with a compiled scope, or an unplanned one if creation stops midway |
| `Archive.BoundedWriter.constructor` | internal/backup/offline.go:243-246 | nothing written, all bytes remaining |
| `Archive.BoundedWriter.Write` | internal/backup/offline.go:248-255 | writes whole or not at all, within the limit |
| `Archive.Archiver.Copy` | internal/backup/offline.go:339-341 | a chunked copy succeeds exactly if all of it fits |
| `Archive.Archiver.Visit` | internal/backup/offline.go:272-348 | succeeds exactly on readable nodes within both limits, and writes exactly their entries |
| `Archive.Archiver.ArchiveRoot` | internal/backup/offline.go:269-364 | succeeds exactly on archivable roots, within MaxFiles entries and MaxBytes bytes |
| `Archive.ArchiveHoldsExactly` | internal/backup/offline.go:279-313 | the entries are exactly the kept nodes and the mounted artifact |
| `Archive.ArchiveNamesOnce` | internal/backup/offline.go:283-364 | each name once, and nothing but the mounted artifact at or under its path |
| `Archive.ArchivableIsPlain` | internal/backup/offline.go:303-330 | everything archived is a directory or a file with one link |
| `Archive.ReadableIff` | internal/backup/offline.go:272-348 | a root is readable if and only if everything the walk gets to has a name without backslash and, if kept, is a sound directory or a file with one link |
| `Archive.KeptIff` | internal/backup/offline.go:286-301 | what is left out: the three top-level directories, and whatever is at or under the mounted artifact |
| `Archive.SpelledIsPrefix` | internal/backup/offline.go:286-287 | the prefix test on spelled paths is the prefix test on components |
| `Protocol.AppendVarInt` | internal/acceptance/g02/protocol.go:151-164 | appends the seven-bit groups of the value |
| `Protocol.ReadVarInt` | internal/acceptance/g02/protocol.go:166-179 | reads at most five bytes, wraps at 32 bits, and consumes exactly what it read |
| `Protocol.OrAddsGroup` | internal/acceptance/g02/protocol.go:173 | setting the bits of a group at its position adds it at its weight, modulo 32 bits |
| `Protocol.ReadInvertsAppend` | internal/acceptance/g02/protocol.go:151-179 | reading inverts appending for every int32 in at most five bytes |
| `Protocol.AppendInvertsRead` | internal/acceptance/g02/protocol.go:151-179 | appending gives back what was read exactly if the encoding is minimal and in range |
| `Protocol.ByteWriter.WritePacket` | internal/acceptance/g02/protocol.go:121-128 | writes the length, the ID and the payload |
| `Protocol.ReadPacket` | internal/acceptance/g02/protocol.go:130-149 | reads one frame, with its errors and what is left |
| `Protocol.PacketReadsBack` | internal/acceptance/g02/protocol.go:121-149 | a packet is read back exactly if its body has at most 1 MiB |
| `Protocol.StreamReadsBack` | internal/acceptance/g02/protocol.go:121-149 | so is any concatenation, and what follows stays untouched |
| `Protocol.AppendString` | internal/acceptance/g02/protocol.go:181-184 | appends the length and the bytes |
| `Protocol.ConsumeString` | internal/acceptance/g02/protocol.go:186-201 | splits a payload into the string and the remainder |
| `Protocol.StringReadsBack` | internal/acceptance/g02/protocol.go:181-201 | a string is consumed whole exactly if it has at most 1 MiB |
| `Protocol.StringsReadBack` | internal/acceptance/g02/protocol.go:181-201 | a concatenation of strings is consumed exactly, leaving what follows, if and only if each has at most 1 MiB |

## Left out

- S06-S10, rollback and recovery are not implemented in the original; the model only has the store refuse those steps.
- SQLite, JSON, the canonicaliser, SHA-256 and random IDs: atomic maps, function parameters and arguments stand for them.
- A stored S03 evidence text that is not a ready record counts as unreadable; decoding arbitrary JSON is not modelled.
- Audit rows, sessions, summaries and all read-only queries of the store: they decide nothing here.
- Docker, sockets, mounts, inodes, owner-only checks and identity checks of the backup engine: one oracle bit says that such a check failed.
- The text of the reason recorded with an unknown outcome is a constant.
- The polling in `waitMaintenance` is one oracle answer in the workflow; the polling of a stop is modelled in `PaperStop`.
- `ObserveSafety` of the Paper target and the lookup of its active artifact: plain assembly of oracle answers.
- MCP server, HTTP routes, rate limits, configuration loaders, command lines, the sandbox and the user interface.
- The shutdown order of the gate's listeners, and what a client sees on the wire.
- Names that are not valid UTF-8 are refused by the original's walk like unsafe names; strings here have no encoding. File modes, owners and times in archive headers belong to the header parameter.
- Lower-casing in the remediation check is modelled for ASCII letters.
- Equality of Python values across types, such as `True == 1`, in arguments and observed fields: values of different kinds differ here. A null and an absent field read the same, as `get` makes them.
- Concurrent callers of one run in the legacy runner: `step`, `approve` and `reject` hold a lock per run, so any sequence of them is covered. `run_until_blocked` takes that lock anew for each step; `RunUntilBlocked` models it without other callers in between, and interleaved ones are covered as sequences of single steps. A crash inside a method is not modelled, except between the two saves of `create_run`.
- Approvals are given strictly increasing creation times. The original reads the wall clock and leaves a tie to the database; two approvals of one run at one instant are not modelled.
- StartSession: is for a client that is not in the table yet, because the accept loop hands each new connection to one handler; a connection started twice is not modelled.
- EndSession: is for a client in the table, because `handle` defers it only after a successful start; the count going below the number of clients otherwise is not modelled.
- TrackUpstream and UntrackUpstream: are for upstream connections, the only ones `handle` tracks and untracks this way.
- Execute: is for an action inside its run's scope, and on an approval for an authorized unexpired run, because its two callers have just checked that; the original's `_execute` does not check it again.
- ExecuteApproved: is for a service observed as approved, which is what its one caller has just compared.
- RevalidateApproval: does not state which reason is reported first, because the reason only goes into the error text.
- DispatchStep, StopStep, CreateStep and InspectStep follow `Run`, `Create` and `Inspect` step by step on values; the in-place update of Go's local variables is not captured, the durable effects and stale reads are.
