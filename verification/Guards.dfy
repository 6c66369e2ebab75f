/**
 When each transaction of the store commits, in the terms of its caller and with the error of each guard that fails,
 and what committed ones leave in every journal that any calls can reach.
 */
module Guards {
  import opened Domain
  import opened Journal
  import opened JournalSafety

  // ---- Approvals ----------------------------------------------------------------------------

  predicate Occupies(op: Operation, enrollmentID: ID) {
    op.enrollmentID == enrollmentID && !op.released
  }

  predicate Unresolved(op: Operation) {
    op.status == Unknown || op.status == NeedsIntervention
  }

  ghost predicate Free(j: Journal, enrollmentID: ID) {
    forall k :: k in j.operations ==> !Occupies(j.operations[k].payload, enrollmentID)
  }

  /** An operation holds the enrollment, and nobody knows what it did. */
  ghost predicate Blocked(j: Journal, enrollmentID: ID) {
    exists k :: k in j.operations && Occupies(j.operations[k].payload, enrollmentID) &&
      Unresolved(j.operations[k].payload)
  }

  lemma RowsArePayloads(j: Journal, k: ID)
    requires Consistent(j) && k in j.operations
    ensures j.operations[k] == RowOfOperation(j.operations[k].payload)
  {
    hide StepsOK, BackupsOK, ApprovalsOK, IntentsOK, SingleWriter;
    assert OperationOK(j.operations[k], k, j.intents);
  }

  lemma OneHolder(j: Journal, enrollmentID: ID, k: ID, m: ID)
    requires Consistent(j) && k in j.operations && m in j.operations
    requires Occupies(j.operations[k].payload, enrollmentID) && Occupies(j.operations[m].payload, enrollmentID)
    ensures k == m
  {
    hide StepsOK, BackupsOK, ApprovalsOK, IntentsOK;
    RowsArePayloads(j, k);
    RowsArePayloads(j, m);
  }

  lemma OwnerIff(j: Journal, enrollmentID: ID)
    requires Consistent(j)
    ensures var r := ActiveOwner(j.operations, enrollmentID);
            && (r.Ok? <==> Free(j, enrollmentID))
            && (r == Err(TargetBlockedUnknown) <==> Blocked(j, enrollmentID))
            && (r == Err(TargetBusy) <==> !Free(j, enrollmentID) && !Blocked(j, enrollmentID))
            && (r.Err? ==> r.code == TargetBlockedUnknown || r.code == TargetBusy)
  {
    hide Consistent;
    forall k | k in j.operations ensures j.operations[k] == RowOfOperation(j.operations[k].payload) {
      RowsArePayloads(j, k);
    }
    forall k, m | k in j.operations && m in j.operations && Occupies(j.operations[k].payload, enrollmentID) &&
                  Occupies(j.operations[m].payload, enrollmentID)
      ensures k == m
    {
      OneHolder(j, enrollmentID, k, m);
    }
    assert forall k :: k in j.operations ==>
           (Owns(j.operations[k], enrollmentID) <==> Occupies(j.operations[k].payload, enrollmentID));
  }

  /** The operator names the digest of the frozen bytes. */
  ghost predicate Genuine(digests: Digests, i: ChangeIntent, digest: string) {
    digests.intent(i.(intentDigest := "")) == i.intentDigest == digest
  }

  ghost predicate UnusedApproval(j: Journal, approvalID: ID) {
    forall k :: k in j.approvals ==> j.approvals[k].payload.approvalID != approvalID
  }

  /** The errors of a first approval, in the order in which its guards are asked. */
  ghost function ApprovalRefusal(j: Journal, intentID: ID, digest: string, now: Time, approvalID: ID, operationID: ID)
    : Result<()>
  {
    if intentID !in j.intents then Err(NotFound)
    else
      var record := j.intents[intentID].payload;
      var i := record.intent;
      if !Genuine(j.digests, i, digest) then Err(InvalidIntentDigest)
      else if i.approvalDeadline <= now || i.startBefore <= now then Err(ApprovalExpired)
      else if record.status != IntentAwaitingApproval then Err(ApprovalRevoked)
      else if Blocked(j, i.enrollmentID) then Err(TargetBlockedUnknown)
      else if !Free(j, i.enrollmentID) then Err(TargetBusy)
      else if !UnusedApproval(j, approvalID) || operationID in j.operations then Err(JournalUnavailable)
      else Ok(())
  }

  lemma NoOperationWithoutApproval(j: Journal, intentID: ID)
    requires Consistent(j) && intentID !in j.approvals
    ensures !HasOperationFor(j.operations, intentID)
  {
    hide StepsOK, BackupsOK, OperationsOK, IntentsOK, SingleWriter;
  }

  lemma ApprovalIDs(j: Journal, approvalID: ID)
    requires Consistent(j)
    ensures UnusedApproval(j, approvalID) <==> forall k :: k in j.approvals ==> j.approvals[k].approvalID != approvalID
  {
    hide StepsOK, BackupsOK, OperationsOK, IntentsOK, SingleWriter;
    assert forall k :: k in j.approvals ==> ApprovalOK(j.approvals[k], k, j.intents[k]);
  }

  /**
   A first approval is granted exactly if the intent is stored, its genuine digest is the one named, neither deadline
   has come, it awaits approval, its enrollment is free and the new identifiers are unused. Otherwise the first of
   these that fails names the error.
   */
  lemma FirstApprovalIff(j: Journal, intentID: ID, digest: string, approver: ID, osUID: int, now: Time, approvalID: ID,
                         operationID: ID)
    requires Consistent(j) && intentID !in j.approvals
    ensures var r := ApproveIntent(j, intentID, digest, approver, osUID, now, approvalID, operationID);
            var refusal := ApprovalRefusal(j, intentID, digest, now, approvalID, operationID);
            && (r.Ok? <==> refusal.Ok?) && (r.Err? ==> r.code == refusal.code)
            && (r.Ok? ==>
                  && r.value.1 == Approval(approvalID, intentID, digest, approver, osUID, Approved, now)
                  && r.value.2.operationID == operationID && r.value.2.intentID == intentID
                  && r.value.2.intentDigest == digest && r.value.2.status == Queued && !r.value.2.released
                  && r.value.2.attempts == [] && r.value.2.createdAt == now)
  {
    hide Consistent, ActiveOwner, HasOperationFor, UpdateIntent, Free, Blocked, UnusedApproval;
    NoOperationWithoutApproval(j, intentID);
    ApprovalIDs(j, approvalID);
    if intentID in j.intents { OwnerIff(j, j.intents[intentID].payload.intent.enrollmentID); }
    FreeIsNotBlocked(j, intentID);
  }

  lemma FreeIsNotBlocked(j: Journal, intentID: ID)
    ensures intentID in j.intents ==>
              var e := j.intents[intentID].payload.intent.enrollmentID; Free(j, e) ==> !Blocked(j, e)
  {
  }

  /** In every journal, whoever made the calls: an intent was approved before both its deadlines, on its own digest. */
  lemma ApprovedInTime(digests: Digests, calls: seq<Call>, i: ID)
    requires i in After(digests, calls).approvals
    requires After(digests, calls).approvals[i].payload.decision == Approved
    ensures var j := After(digests, calls);
            && i in j.intents
            && var approval, intent := j.approvals[i].payload, j.intents[i].payload.intent;
            && approval.decidedAt < intent.approvalDeadline && approval.decidedAt < intent.startBefore
            && approval.intentDigest == intent.intentDigest && approval.intentID == i
  {
    hide ApplyAll;
    ReachableJournals(digests, calls, []);
    hide StepsOK, BackupsOK, OperationsOK, IntentsOK, SingleWriter;
    var j := After(digests, calls);
    assert ApprovalOK(j.approvals[i], i, j.intents[i]);
  }

  /** Approving again answers with the first decision exactly if that was an approval of the digest named now. */
  lemma RepeatedApprovalIff(j: Journal, intentID: ID, digest: string, approver: ID, osUID: int, now: Time,
                            approvalID: ID, operationID: ID)
    requires Consistent(j) && intentID in j.approvals
    ensures var r := ApproveIntent(j, intentID, digest, approver, osUID, now, approvalID, operationID);
            var approval := j.approvals[intentID].payload;
            && (r.Ok? <==> approval.decision == Approved && approval.intentDigest == digest)
            && (r == Err(ApprovalRevoked) <==> approval.decision == Rejected)
            && (r == Err(InvalidIntentDigest) <==> approval.decision == Approved && approval.intentDigest != digest)
            && (r.Ok? ==> r.value.0 == j && r.value.1 == approval && r.value.2.intentID == intentID)
  {
    hide StepsOK, BackupsOK, IntentsOK, SingleWriter, ActiveOwner;
    if HasOperationFor(j.operations, intentID) { RowsArePayloads(j, OperationFor(j.operations, intentID)); }
  }

  /** The errors of a first decision that is not an approval. */
  ghost function DecisionRefusal(j: Journal, intentID: ID, digest: string): Result<()> {
    if intentID !in j.intents then Err(NotFound)
    else if !Genuine(j.digests, j.intents[intentID].payload.intent, digest) then Err(InvalidIntentDigest)
    else Ok(())
  }

  /** A rejection is written exactly for a stored, genuine, awaiting intent, or repeated exactly for the same digest. */
  lemma RejectIff(j: Journal, intentID: ID, digest: string, approver: ID, osUID: int, now: Time, approvalID: ID)
    requires Consistent(j)
    ensures var r := RejectIntent(j, intentID, digest, approver, osUID, now, approvalID);
            if intentID in j.approvals then
              var existing := j.approvals[intentID].payload;
              && (r.Ok? <==> existing.decision == Rejected && existing.intentDigest == digest)
              && (r.Ok? ==> r.value == (j, existing)) && (r.Err? ==> r.code == ApprovalRevoked)
            else
              var refusal := DecisionRefusal(j, intentID, digest);
              && (refusal.Err? ==> r.Err? && r.code == refusal.code)
              && (refusal.Ok? ==>
                    var awaits := j.intents[intentID].payload.status == IntentAwaitingApproval;
                    && (r.Ok? <==> awaits && UnusedApproval(j, approvalID))
                    && (r.Err? ==> r.code == if awaits then JournalUnavailable else ApprovalRevoked)
                    && (r.Ok? ==>
                          && r.value.1 == Approval(approvalID, intentID, digest, approver, osUID, Rejected, now)
                          && r.value.0.operations == j.operations))
  {
    hide Consistent, UpdateIntent, UnusedApproval;
    ApprovalIDs(j, approvalID);
  }

  /** An intent is revoked exactly if it is stored, genuine and not closed yet. */
  lemma RevokeIff(j: Journal, intentID: ID, digest: string, now: Time)
    requires Consistent(j)
    ensures var r := RevokeIntent(j, intentID, digest, now);
            var refusal := DecisionRefusal(j, intentID, digest);
            && (refusal.Err? ==> r.Err? && r.code == refusal.code)
            && (refusal.Ok? ==>
                  var status := j.intents[intentID].payload.status;
                  var closed := status == IntentRejected || status == IntentExpired || status == IntentRevoked ||
                                status == IntentCancelled;
                  (r.Ok? <==> !closed) && (r.Err? ==> r.code == ApprovalRevoked) &&
                  (r.Ok? ==>
                     && intentID in r.value.intents && r.value.intents[intentID].status == IntentRevoked
                     && r.value.intents[intentID].payload.intent == j.intents[intentID].payload.intent))
  {
    hide Consistent;
    if intentID in j.intents { IntentFacts(j, intentID); }
    if HasOperationFor(j.operations, intentID) { KnownOperation(j, OperationFor(j.operations, intentID)); }
  }

  lemma KnownOperation(j: Journal, k: ID)
    requires Consistent(j) && k in j.operations
    ensures j.operations[k].payload.operationID == k
  {
    OperationFacts(j, k);
  }

  // ---- Steps -----------------------------------------------------------------------------------

  /** Why a step is not prepared, in the order in which its guards are asked. */
  ghost function PrepareRefusal(j: Journal, k: ID, kind: StepKind, stepID: ID): Result<()> {
    if kind in {S06Replace, S07Start, S08Verify, S09Release, S10Finalize} then Err(UnsupportedEnvironment)
    else if k !in j.operations then Err(NotFound)
    else
      var op := j.operations[k].payload;
      if Unresolved(op) then Err(TargetBlockedUnknown)
      else if op.intentID !in j.intents then Err(JournalUnavailable)
      else
        var record := j.intents[op.intentID].payload;
        var i := record.intent;
        if !Genuine(j.digests, i, i.intentDigest) then Err(InvalidIntentDigest)
        else if record.status != IntentConsumed || op.released || op.intentDigest != i.intentDigest ||
                op.status in {Succeeded, Failed, Aborted, RolledBack, RollbackFailed}
        then Err(ApprovalRevoked)
        else if |op.attempts| >= |i.steps| || i.steps[|op.attempts|] != kind then Err(ScopeDenied)
        else if exists n :: 0 <= n < |op.attempts| && !op.attempts[n].Complete() then Err(DispatchOutcomeUnknown)
        else if stepID in j.steps then Err(JournalUnavailable)
        else Ok(())
  }

  /**
   A step is prepared exactly if it is one of S00-S05 and the next of its intent,
     the operation goes on under a consumed,
   genuine intent, and every earlier step is complete. It is appended untouched, and nothing else changes.
   */
  lemma PrepareIff(j: Journal, k: ID, kind: StepKind, now: Time, stepID: ID)
    requires Consistent(j)
    ensures var r := PrepareStep(j, k, kind, now, stepID);
            var refusal := PrepareRefusal(j, k, kind, stepID);
            && (r.Ok? <==> refusal.Ok?) && (r.Err? ==> r.code == refusal.code)
            && (r.Ok? ==>
                  var (j', a) := r.value;
                  && a.stepID == stepID && a.kind == kind && a.dispatch == NotDispatched && a.effect == ProvenNotApplied
                  && a.attribution == Unattributed && a.preparedAt == now && a.evidence == []
                  && k in j'.operations
                  && j'.operations[k].payload ==
                     j.operations[k].payload.(attempts := j.operations[k].payload.attempts + [a], updatedAt := now))
  {
    hide Consistent, PrepareStep;
    NamedByKey(j);
    PrepareRefuses(j, k, kind, now, stepID);
    if PrepareStep(j, k, kind, now, stepID).Ok? { PrepareAppends(j, k, kind, now, stepID); }
  }

  lemma PrepareRefuses(j: Journal, k: ID, kind: StepKind, now: Time, stepID: ID)
    requires Named(j)
    ensures var r := PrepareStep(j, k, kind, now, stepID);
            var refusal := PrepareRefusal(j, k, kind, stepID);
            (r.Ok? <==> refusal.Ok?) && (r.Err? ==> r.code == refusal.code)
  {
    hide NextAttemptNo;
  }

  lemma PrepareAppends(j: Journal, k: ID, kind: StepKind, now: Time, stepID: ID)
    requires Named(j) && PrepareStep(j, k, kind, now, stepID).Ok?
    ensures var (j', a) := PrepareStep(j, k, kind, now, stepID).value;
            && a.stepID == stepID && a.kind == kind && a.dispatch == NotDispatched && a.effect == ProvenNotApplied
            && a.attribution == Unattributed && a.preparedAt == now && a.evidence == []
            && k in j.operations && k in j'.operations
            && j'.operations[k].payload ==
               j.operations[k].payload.(attempts := j.operations[k].payload.attempts + [a], updatedAt := now)
  {
    hide NextAttemptNo, AllComplete;
  }

  // ---- Success ------------------------------------------------------------------------------------

  predicate Verified(op: Operation) {
    op.status == Succeeded ==> op.verification == VerificationPass && op.released
  }

  /** A call leaves the verification alone, or is the transition that writes it. */
  lemma CallKeepsVerified(j: Journal, call: Call, k: ID)
    requires Consistent(j) && k in Apply(j, call).operations
    requires k in j.operations ==> Verified(j.operations[k].payload)
    ensures Verified(Apply(j, call).operations[k].payload)
  {
    hide Consistent, Apply, Verified;
    NamedByKey(j);
    match call
    case Revoke(_, _, _) => RevokeKeepsVerified(j, call, k);
    case Insert(_) => DecisionKeepsVerified(j, call, k);
    case Approve(_, _, _, _, _, _, _) => DecisionKeepsVerified(j, call, k);
    case Reject(_, _, _, _, _, _) => DecisionKeepsVerified(j, call, k);
    case Prepare(_, _, _, _) => StepKeepsVerified(j, call, k);
    case MarkPossible(_, _, _) => StepKeepsVerified(j, call, k);
    case Record(_, _, _, _, _, _) => StepKeepsVerified(j, call, k);
    case _ => MoveKeepsVerified(j, call, k);
  }

  lemma DecisionKeepsVerified(j: Journal, call: Call, k: ID)
    requires (call.Insert? || call.Approve? || call.Reject?) && k in Apply(j, call).operations
    requires k in j.operations ==> Verified(j.operations[k].payload)
    ensures Verified(Apply(j, call).operations[k].payload)
  {
    hide UpdateIntent, ActiveOwner, IntentForDecision, HasOperationFor;
  }

  lemma StepKeepsVerified(j: Journal, call: Call, k: ID)
    requires Named(j) && (call.Prepare? || call.MarkPossible? || call.Record?) && k in Apply(j, call).operations
    requires k in j.operations ==> Verified(j.operations[k].payload)
    ensures Verified(Apply(j, call).operations[k].payload)
  {
    hide FindStep, NextAttemptNo, AllComplete, UpdateStep;
  }

  lemma MoveKeepsVerified(j: Journal, call: Call, k: ID)
    requires Named(j) && k in Apply(j, call).operations
    requires call.MarkUnresolved? || call.Transition? || call.Reserve? || call.MoveBackup? || call.Complete?
    requires k in j.operations ==> Verified(j.operations[k].payload)
    ensures Verified(Apply(j, call).operations[k].payload)
  {
    if call.Complete? { CompleteKeepsVerified(j, call, k); } else { hide ValidateReady, MatchesIntent, CompleteBackup; }
  }

  lemma RevokeKeepsVerified(j: Journal, call: Call, k: ID)
    requires Named(j) && call.Revoke? && k in Apply(j, call).operations
    requires k in j.operations ==> Verified(j.operations[k].payload)
    ensures Verified(Apply(j, call).operations[k].payload)
  {
    hide UpdateIntent, IntentForDecision, ApproveIntent, RejectIntent;
  }

  lemma CompleteKeepsVerified(j: Journal, call: Call, k: ID)
    requires Named(j) && call.Complete? && k in Apply(j, call).operations
    requires k in j.operations ==> Verified(j.operations[k].payload)
    ensures Verified(Apply(j, call).operations[k].payload)
  {
    hide ValidateReady, ValidateCompleted;
  }

  lemma {:induction false} CallsKeepVerified(digests: Digests, calls: seq<Call>, k: ID)
    requires k in After(digests, calls).operations
    ensures Verified(After(digests, calls).operations[k].payload)
  {
    if calls == [] {
    } else {
      hide Apply, Verified;
      var before := calls[..|calls| - 1];
      ReachableJournals(digests, before, []);
      if k in After(digests, before).operations { CallsKeepVerified(digests, before, k); }
      CallKeepsVerified(After(digests, before), calls[|calls| - 1], k);
    }
  }

  /** Whoever makes the calls: an operation has succeeded only with a passed verification, and is released then. */
  lemma SucceededIsVerified(digests: Digests, calls: seq<Call>, k: ID)
    requires k in After(digests, calls).operations && After(digests, calls).operations[k].payload.status == Succeeded
    ensures var op := After(digests, calls).operations[k].payload; op.verification == VerificationPass && op.released
  {
    hide ApplyAll;
    CallsKeepVerified(digests, calls, k);
  }

  // ---- Backups --------------------------------------------------------------------------------------

  /** The record is about the deployment and the intent as they were frozen. */
  ghost predicate NamesIntent(r: BackupRecord, i: ChangeIntent, recipe: string) {
    && (r.level == FakeTarget || r.level == LocalPaper) && r.offlineMode && r.schema == "gar.backup.v1"
    && r.backupID == i.reservedBackupID && r.intentID == i.intentID && r.intentDigest == i.intentDigest
    && r.enrollmentID == i.enrollmentID && r.containerIdentity == i.containerID
    && r.deploymentGeneration == i.deploymentGeneration && r.paperTuple == i.paperTuple
    && r.bootIDBeforeStop == i.expectedBootID
    && r.sourceInventoryDigest == i.inventoryDigest && r.sourceConfigDigest == i.configDigest
    && r.sourceArtifacts == [SourceArtifact(i.fromArtifactID, i.pluginID, i.fromSHA256)]
    && r.recipeID == "gar.offline-tar.v1" && r.recipeDigest == i.backupRecipeDigest == recipe
  }

  /** What it tells of the stop is about this operation's S03, the frozen server and the frozen deployment. */
  ghost predicate TellsOfStop(digests: Digests, r: BackupRecord, i: ChangeIntent, op: Operation) {
    && |op.attempts| > 3 && r.ready.stop.stepID == op.attempts[3].stepID && op.attempts[3].kind == S03GracefulStop
    && r.ready.stop.operationID == op.operationID
    && r.ready.stop.containerID == i.containerID && r.ready.stop.bootID == i.expectedBootID && CleanStop(r.ready.stop)
    && AsFrozen(digests, r.ready.beforeStop, r.ready.offline.enrollment, i)
    && AsFrozen(digests, r.ready.offline, r.ready.offline.enrollment, i)
  }

  ghost predicate Registered(j: Journal, b: ID)
    requires b in j.backups
  {
    var r := j.backups[b].payload;
    && r.operationID in j.operations
    && var op := j.operations[r.operationID].payload;
    && op.intentID in j.intents
    && var i := j.intents[op.intentID].payload.intent;
    && NamesIntent(r, i, j.digests.recipe) && TellsOfStop(j.digests, r, i, op)
    && |op.attempts| > 5 && op.attempts[5].stepID == r.stepID && op.attempts[5].kind == S05CreateBackup
  }

  lemma ReadyTellsOfStop(digests: Digests, r: BackupRecord, i: ChangeIntent, op: Operation, now: Time)
    requires ValidateReady(digests, r.ready, r.ready.offline.enrollment, i, op, now).Ok?
    ensures TellsOfStop(digests, r, i, op)
  {
    var e := r.ready.offline.enrollment;
    ReadyIff(digests, r.ready, e, i, op, now);
    SafetyIff(digests, r.ready.beforeStop, e, i, r.ready.stop.requestedAt);
    SafetyIff(digests, r.ready.offline, e, i, now);
    hide ValidateReady, ValidateSafety;
  }

  lemma ReservedIsRegistered(j: Journal, r: BackupRecord, now: Time)
    requires ReserveBackup(j, r, now).Ok?
    ensures var j' := ReserveBackup(j, r, now).value;
            && j' == j.(backups := j.backups[r.backupID := BackupRow(r.operationID, r.status, r)])
            && Registered(j', r.backupID)
  {
    hide ValidateReady, TellsOfStop, ValidateSafety;
    var op := j.operations[r.operationID].payload;
    ReadyTellsOfStop(j.digests, r, j.intents[op.intentID].payload.intent, op, now);
  }

  /** A step is complete exactly with the backup's own commit, on the evidence that commit was given. */
  lemma CompletedIsRegistered(j: Journal, b: ID, digest: string, size: int, ready: ReadyEvidence, now: Time)
    requires Consistent(j) && CompleteBackup(j, b, digest, size, ready, now).Ok? && Registered(j, b)
    ensures var j' := CompleteBackup(j, b, digest, size, ready, now).value; b in j'.backups && Registered(j', b)
  {
    hide Consistent, ValidateReady, ValidateCompleted, TellsOfStop, IsHexDigest;
    NamedByKey(j);
    BackupFacts(j, b);
    var row := j.backups[b];
    var op := j.operations[row.payload.operationID].payload;
    var r := row.payload.(ready := ready, status := BackupValid, archiveSHA256 := digest,
                          archiveSize := size, digestVerifiedAt := now, completedAt := now);
    ReadyTellsOfStop(j.digests, r, j.intents[op.intentID].payload.intent, op, now);
    var j' := CompleteBackup(j, b, digest, size, ready, now).value;
    SameStop(j.digests, r, j.intents[op.intentID].payload.intent, op, j'.operations[op.operationID].payload);
  }

  lemma SameStop(digests: Digests, r: BackupRecord, i: ChangeIntent, op: Operation, next: Operation)
    requires TellsOfStop(digests, r, i, op) && next.operationID == op.operationID && |next.attempts| > 3
    requires next.attempts[3].stepID == op.attempts[3].stepID && next.attempts[3].kind == op.attempts[3].kind
    ensures TellsOfStop(digests, r, i, next)
  {
    hide AsFrozen, CleanStop;
  }

  /** Nothing that is true of the record depends on what changes later. */
  lemma StaysRegistered(j: Journal, j': Journal, b: ID)
    requires Consistent(j) && StepGood(j, j') && b in j.backups && Registered(j, b) && b in j'.backups
    requires j'.backups[b].payload == j.backups[b].payload.(status := j'.backups[b].payload.status)
    ensures Registered(j', b)
  {
    hide Consistent, AsFrozen, CleanStop;
    var k := j.backups[b].payload.operationID;
    OperationFacts(j, k);
    OperationFacts(j', k);
    assert OperationEvolves(j.operations[k].payload, j'.operations[k].payload);
    assert IntentEvolves(j.intents[j.operations[k].intentID], j'.intents[j.operations[k].intentID]);
    var was, now := j.operations[k].payload.attempts, j'.operations[k].payload.attempts;
    assert AttemptEvolves(was[3], now[3]) && AttemptEvolves(was[5], now[5]);
  }

  lemma OtherCallsKeepBackups(j: Journal, call: Call)
    requires !call.Reserve? && !call.MoveBackup? && !call.Complete?
    ensures Apply(j, call).backups == j.backups
  {
    hide FindStep, NextAttemptNo, ActiveOwner, UpdateIntent, AllComplete;
    if call.Revoke? { RevokeKeepsBackups(j, call); } else { hide RevokeIntent; }
  }

  lemma RevokeKeepsBackups(j: Journal, call: Call)
    requires call.Revoke?
    ensures Apply(j, call).backups == j.backups
  {
    hide UpdateIntent, ApproveIntent, RejectIntent;
  }

  lemma CompletedBackups(j: Journal, b: ID, digest: string, size: int, ready: ReadyEvidence, now: Time)
    requires CompleteBackup(j, b, digest, size, ready, now).Ok?
    ensures var j' := CompleteBackup(j, b, digest, size, ready, now).value;
            b in j.backups && b in j'.backups && j'.backups == j.backups[b := j'.backups[b]]
  {
    hide ValidateReady, ValidateCompleted, IsHexDigest;
  }

  lemma CallKeepsRegistered(j: Journal, call: Call, b: ID)
    requires Consistent(j) && b in Apply(j, call).backups && (b in j.backups ==> Registered(j, b))
    ensures Registered(Apply(j, call), b)
  {
    hide Consistent, StepGood, Registered;
    CallGood(j, call);
    if Commit(j, call).Ok? {
      match call
      case Reserve(r, now) =>
        hide ReserveBackup;
        ReservedIsRegistered(j, r, now);
        if b != r.backupID { StaysRegistered(j, Apply(j, call), b); }
      case Complete(id, digest, size, ready, now) =>
        hide CompleteBackup;
        CompletedBackups(j, id, digest, size, ready, now);
        if b == id { CompletedIsRegistered(j, b, digest, size, ready, now); }
        else { StaysRegistered(j, Apply(j, call), b); }
      case MoveBackup(_, _) => StaysRegistered(j, Apply(j, call), b);
      case _ =>
        hide Apply;
        OtherCallsKeepBackups(j, call);
        StaysRegistered(j, Apply(j, call), b);
    }
  }

  /**
   Whoever makes the calls: every backup record, from its reservation on, names the frozen intent and deployment of its
   operation and that operation's S05, and tells of a clean stop by that operation's S03 on the frozen server.
   */
  lemma {:induction false} BackupsNameTheirIntent(digests: Digests, calls: seq<Call>, b: ID)
    requires b in After(digests, calls).backups
    ensures Registered(After(digests, calls), b)
  {
    if calls == [] {
    } else {
      hide Apply, Registered;
      var before := calls[..|calls| - 1];
      ReachableJournals(digests, before, []);
      if b in After(digests, before).backups { BackupsNameTheirIntent(digests, before, b); }
      CallKeepsRegistered(After(digests, before), calls[|calls| - 1], b);
    }
  }

  // ---- Observations and statuses ----------------------------------------------------------------------

  /** An observation is recorded exactly for a found step that may have been dispatched, with a known effect. */
  lemma RecordIff(j: Journal, k: ID, stepID: ID, effect: EffectState, attribution: Attribution, evidence: seq<Evidence>,
                  now: Time)
    requires Consistent(j)
    ensures var r := RecordStepObservation(j, k, stepID, effect, attribution, evidence, now);
            if k !in j.operations then r == Err(NotFound)
            else
              var attempts := j.operations[k].payload.attempts;
              var n := FindStep(attempts, stepID);
              if n == |attempts| then r == Err(NotFound)
              else if attempts[n].dispatch == NotDispatched then r == Err(DispatchOutcomeUnknown)
              else if effect.UnrecognizedEffect? then r == Err(InvalidRequest)
              else
                && r.Ok? && k in r.value.operations && n < |r.value.operations[k].payload.attempts|
                && var a := r.value.operations[k].payload.attempts[n];
                && a.effect == effect && a.attribution == attribution && a.evidence == evidence && a.updatedAt == now
                && a.dispatch == (if attribution == Correlated then Acknowledged else attempts[n].dispatch)
                && a.stepID == stepID && a.kind == attempts[n].kind && a.preparedAt == attempts[n].preparedAt
  {
    hide Consistent, FindStep, UpdateStep;
    NamedByKey(j);
  }

  /** The moves an operation may make. */
  const MOVES: set<(OperationStatus, OperationStatus)> := {
    (Queued, Preparing), (Queued, Aborted), (Queued, Unknown), (Queued, NeedsIntervention),
    (Preparing, Executing), (Preparing, Aborted), (Preparing, Unknown), (Preparing, NeedsIntervention),
    (Executing, Verifying), (Executing, Failed), (Executing, Unknown), (Executing, RollbackRequired),
    (Executing, NeedsIntervention),
    (Verifying, Succeeded), (Verifying, Failed), (Verifying, Unknown), (Verifying, RollbackRequired),
    (Verifying, NeedsIntervention),
    (RollbackRequired, RollingBack), (RollbackRequired, NeedsIntervention),
    (RollingBack, RolledBack), (RollingBack, RollbackFailed), (RollingBack, Unknown), (RollingBack, NeedsIntervention)}

  /** A transition commits exactly along these moves, to success only on a passed verification after maintenance. */
  lemma TransitionIff(j: Journal, k: ID, to: OperationStatus, verification: VerificationStatus, released: bool,
                      now: Time)
    requires Consistent(j)
    ensures var r := TransitionOperation(j, k, to, verification, released, now);
            if k !in j.operations then r == Err(NotFound)
            else
              var op := j.operations[k].payload;
              if (op.status, to) !in MOVES then r == Err(ScopeDenied)
              else if to == Succeeded && !(verification == VerificationPass && released)
              then r == Err(VerificationInconclusive)
              else
                && r.Ok? && k in r.value.operations
                && r.value.operations[k].payload ==
                   op.(status := to, verification := verification, updatedAt := now,
                       released := op.released || to == Succeeded || to == Failed || to == Aborted || to == RolledBack)
  {
    hide Consistent, CanTransition, TransitionOperation, Releases;
    NamedByKey(j);
    if k in j.operations { MovesIff(j.operations[k].payload.status, to); }
    ReleasesIff(to);
    TransitionsIff(j, k, to, verification, released, now);
  }

  lemma MovesIff(from: OperationStatus, to: OperationStatus)
    ensures CanTransition(from, to) <==> (from, to) in MOVES
  {
  }

  lemma TransitionsIff(j: Journal, k: ID, to: OperationStatus, verification: VerificationStatus, released: bool,
                       now: Time)
    requires Named(j)
    ensures var r := TransitionOperation(j, k, to, verification, released, now);
            if k !in j.operations then r == Err(NotFound)
            else
              var op := j.operations[k].payload;
              if !CanTransition(op.status, to) then r == Err(ScopeDenied)
              else if to == Succeeded && !(verification == VerificationPass && released)
              then r == Err(VerificationInconclusive)
              else
                && r.Ok? && k in r.value.operations
                && r.value.operations[k].payload ==
                   op.(status := to, verification := verification, updatedAt := now,
                       released := op.released || Releases(to))
  {
    hide CanTransition, Releases;
  }

  lemma ReleasesIff(to: OperationStatus)
    ensures Releases(to) <==> to == Succeeded || to == Failed || to == Aborted || to == RolledBack
  {
  }

  lemma MarkUnknownIff(j: Journal, k: ID, now: Time)
    requires Consistent(j)
    ensures var r := MarkUnknown(j, k, now);
            if k !in j.operations then r == Err(NotFound)
            else if (j.operations[k].payload.status, Unknown) !in MOVES then r == Err(ScopeDenied)
            else
              && r.Ok? && k in r.value.operations
              && r.value.operations[k].payload.status == Unknown && !r.value.operations[k].payload.released
              && r.value.operations[k].payload.attempts == j.operations[k].payload.attempts
  {
    hide Consistent, CanTransition;
    NamedByKey(j);
    if k in j.operations { MovesIff(j.operations[k].payload.status, Unknown); }
  }

  const BACKUP_MOVES: set<(BackupStatus, BackupStatus)> := {
    (BackupReserved, BackupWriting), (BackupReserved, BackupFailed), (BackupReserved, BackupUnknown),
    (BackupReserved, BackupOrphaned), (BackupWriting, BackupFinalizing), (BackupWriting, BackupFailed),
    (BackupWriting, BackupUnknown), (BackupWriting, BackupOrphaned), (BackupFinalizing, BackupVerifying),
    (BackupFinalizing, BackupFailed), (BackupFinalizing, BackupUnknown), (BackupFinalizing, BackupOrphaned),
    (BackupVerifying, BackupFailed), (BackupVerifying, BackupUnknown), (BackupVerifying, BackupOrphaned)}

  lemma MoveBackupIff(j: Journal, b: ID, to: BackupStatus)
    ensures var r := TransitionBackup(j, b, to);
            if b !in j.backups then r == Err(JournalUnavailable)
            else if (j.backups[b].payload.status, to) !in BACKUP_MOVES then r == Err(InvalidRequest)
            else r.Ok? && r.value == j.(backups := r.value.backups) && r.value.backups.Keys == j.backups.Keys &&
                 r.value.backups[b].status == r.value.backups[b].payload.status == to
  {
  }

  /** A new record holds no result yet, is recent, and names target and data root as observed offline. */
  ghost predicate Blank(r: BackupRecord, now: Time) {
    && r.status == BackupReserved && r.completedAt == ZERO_TIME && r.digestVerifiedAt == ZERO_TIME
    && r.archiveSHA256 == "" && r.archiveSize == 0
    && r.createdAt != ZERO_TIME && r.createdAt <= now <= r.createdAt + 5 * SECOND
    && r.targetID == r.ready.offline.enrollment.targetID
    && r.dataRootIdentity == r.ready.offline.enrollment.dataRootIdentity
  }

  ghost predicate NoBackupFor(j: Journal, k: ID) {
    forall b :: b in j.backups ==> j.backups[b].payload.operationID != k
  }

  /** S05 of operation k is durable as possibly dispatched, on a running operation that owns its target. */
  ghost predicate Dispatched5(j: Journal, k: ID, stepID: ID) {
    && k in j.operations
    && var op := j.operations[k].payload;
    && !op.released && op.status == Executing && |op.attempts| == 6
    && op.attempts[5].stepID == stepID && op.attempts[5].dispatch == DispatchPossible
  }

  lemma BackupIDs(j: Journal, k: ID)
    requires Consistent(j)
    ensures NoBackupFor(j, k) <==> forall b :: b in j.backups ==> j.backups[b].operationID != k
  {
    hide StepsOK, OperationsOK, ApprovalsOK, IntentsOK, SingleWriter;
    assert forall b :: b in j.backups ==> BackupOK(j.backups[b], b);
  }

  /**
   A backup is reserved if and only if its S05 is dispatched, its evidence is ready, and the record fits and is new.
   */
  lemma ReserveIff(j: Journal, r: BackupRecord, now: Time)
    requires Consistent(j)
    ensures ReserveBackup(j, r, now).Ok? <==>
            && Dispatched5(j, r.operationID, r.stepID)
            && var op := j.operations[r.operationID].payload;
            && op.attempts[5].kind == S05CreateBackup && op.intentID in j.intents
            && var i := j.intents[op.intentID].payload.intent;
            && ValidateReady(j.digests, r.ready, r.ready.offline.enrollment, i, op, now).Ok?
            && NamesIntent(r, i, j.digests.recipe) && Blank(r, now)
            && r.backupID !in j.backups && NoBackupFor(j, r.operationID)
  {
    hide Consistent, ValidateReady, NoBackupFor;
    BackupIDs(j, r.operationID);
  }

  /**
   A backup is completed if and only if it is being verified, its S05 is still open, and evidence and digest are good.
   */
  lemma CompleteIff(j: Journal, b: ID, digest: string, size: int, ready: ReadyEvidence, now: Time)
    requires Consistent(j)
    ensures CompleteBackup(j, b, digest, size, ready, now).Ok? <==>
            && IsHexDigest(digest) && size > 0 && b in j.backups
            && var r := j.backups[b].payload;
            && r.status == BackupVerifying && Dispatched5(j, r.operationID, r.stepID)
            && var op := j.operations[r.operationID].payload;
            && op.attempts[5].effect == EffectUnknown && op.intentID in j.intents
            && ValidateReady(j.digests, ready, ready.offline.enrollment, j.intents[op.intentID].payload.intent, op,
                             now).Ok?
            && r.schema == "gar.backup.v1" && r.offlineMode && now >= r.createdAt && now != ZERO_TIME
  {
    hide Consistent, ValidateReady;
    NamedByKey(j);
  }
}
