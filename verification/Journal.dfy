/**
 The durable journal as a value, and each immediate transaction on it as a
 function. A transaction either commits (`Ok` with the new journal) or rolls
 back (`Err`, journal unchanged), so a caller that loses the response of a
 commit sees an error although the journal moved.

 Rows keep the indexed columns beside the payload, as the tables do. Random
 identifiers are arguments; a clash is the primary-key error of the table.
 */
module Journal {
  import opened Domain

  datatype IntentRow = IntentRow(
    principalID: ID, enrollmentID: ID, clientRequestID: ID, proposalDigest: string,
    intentDigest: string, status: IntentStatus, payload: IntentRecord)

  /** Keyed by intent: `intent_id` is unique in the approvals table. */
  datatype ApprovalRow = ApprovalRow(approvalID: ID, intentDigest: string, payload: Approval)

  datatype OperationRow = OperationRow(
    intentID: ID, enrollmentID: ID, status: OperationStatus, released: bool, payload: Operation)

  datatype StepRow = StepRow(operationID: ID, attemptNo: nat, payload: StepAttempt)

  datatype BackupRow = BackupRow(operationID: ID, status: BackupStatus, payload: BackupRecord)

  type Intents = map<ID, IntentRow>
  type Approvals = map<ID, ApprovalRow>
  type Operations = map<ID, OperationRow>
  type Steps = map<ID, StepRow>
  type Backups = map<ID, BackupRow>

  datatype Journal = Journal(
    digests: Digests, intents: Intents, approvals: Approvals, operations: Operations,
    steps: Steps, backups: Backups)

  function Empty(digests: Digests): Journal {
    Journal(digests, map[], map[], map[], map[], map[])
  }

  // ---- Rows --------------------------------------------------------------

  function RowOfIntent(record: IntentRecord): IntentRow {
    IntentRow(record.intent.principalID, record.intent.enrollmentID, record.intent.clientRequestID,
              record.proposalDigest, record.intent.intentDigest, record.status, record)
  }

  function RowOfOperation(op: Operation): OperationRow {
    OperationRow(op.intentID, op.enrollmentID, op.status, op.released, op)
  }

  /** UPDATE of an intent row writes the status and the payload and no other column. */
  function UpdateIntent(intents: Intents, record: IntentRecord): Intents {
    if record.intent.intentID in intents then
      intents[record.intent.intentID :=
        intents[record.intent.intentID].(status := record.status, payload := record)]
    else intents
  }

  /** UPDATE of an operation row writes status, ownership and payload; it must hit exactly one row. */
  function SaveOperation(operations: Operations, op: Operation): Result<Operations> {
    var known := op.operationID in operations;
    :- Need(known, NotFound);
    Ok(operations[op.operationID :=
         operations[op.operationID].(status := op.status, released := op.released, payload := op)])
  }

  function UpdateStep(steps: Steps, a: StepAttempt, operationID: ID): Steps {
    if a.stepID in steps && steps[a.stepID].operationID == operationID then
      steps[a.stepID := steps[a.stepID].(payload := a)]
    else steps
  }

  ghost predicate Owns(row: OperationRow, enrollmentID: ID) {
    row.enrollmentID == enrollmentID && !row.released
  }

  /** The error of the first unreleased operation the index yields, or none. */
  ghost function ActiveOwner(operations: Operations, enrollmentID: ID): Result<()> {
    if k :| k in operations && Owns(operations[k], enrollmentID) then
      if operations[k].status in {Unknown, NeedsIntervention} then Err(TargetBlockedUnknown) else Err(TargetBusy)
    else Ok(())
  }

  ghost predicate HasClientKey(intents: Intents, principalID: ID, enrollmentID: ID, key: ID) {
    exists k :: k in intents && SameClientKey(intents[k], principalID, enrollmentID, key)
  }

  predicate SameClientKey(row: IntentRow, principalID: ID, enrollmentID: ID, key: ID) {
    row.principalID == principalID && row.enrollmentID == enrollmentID && row.clientRequestID == key
  }

  ghost predicate HasOperationFor(operations: Operations, intentID: ID) {
    exists k :: k in operations && operations[k].intentID == intentID
  }

  ghost function OperationFor(operations: Operations, intentID: ID): (k: ID)
    requires HasOperationFor(operations, intentID)
    ensures k in operations && operations[k].intentID == intentID
  {
    var k :| k in operations && operations[k].intentID == intentID; k
  }

  // ---- Intents and approvals ----------------------------------------------

  /** The insert of PutIntent; its lookups before and after read the journal only. */
  ghost function InsertIntent(j: Journal, record: IntentRecord): Result<Journal> {
    var i := record.intent;
    :- Need(i.intentID !in j.intents &&
            !HasClientKey(j.intents, i.principalID, i.enrollmentID, i.clientRequestID), JournalUnavailable);
    Ok(j.(intents := j.intents[i.intentID := RowOfIntent(record)]))
  }

  ghost function HolderOfKey(intents: Intents, principalID: ID, enrollmentID: ID, key: ID): (k: ID)
    requires HasClientKey(intents, principalID, enrollmentID, key)
    ensures k in intents && SameClientKey(intents[k], principalID, enrollmentID, key)
  {
    var k :| k in intents && SameClientKey(intents[k], principalID, enrollmentID, key); k
  }

  /** The lookup of PutIntent: the intent that already holds the client key, if its proposal is the same. */
  ghost function ResolveIntent(j: Journal, record: IntentRecord): Result<IntentRecord> {
    var i := record.intent;
    :- Need(HasClientKey(j.intents, i.principalID, i.enrollmentID, i.clientRequestID), JournalUnavailable);
    var existing := j.intents[HolderOfKey(j.intents, i.principalID, i.enrollmentID, i.clientRequestID)].payload;
    :- Need(existing.proposalDigest == record.proposalDigest, IdempotencyConflict);
    Ok(existing)
  }

  /** PutIntent without interference; the flag says whether the record was created. */
  ghost function PutIntent(j: Journal, record: IntentRecord): Result<(Journal, IntentRecord, bool)> {
    var i := record.intent;
    if HasClientKey(j.intents, i.principalID, i.enrollmentID, i.clientRequestID) then
      var existing :- ResolveIntent(j, record);
      Ok((j, existing, false))
    else
      var next :- InsertIntent(j, record);
      Ok((next, record, true))
  }

  ghost function ApproveIntent(j: Journal, intentID: ID, expectedDigest: string, approver: ID, osUID: int,
                               now: Time, approvalID: ID, operationID: ID)
    : Result<(Journal, Approval, Operation)>
  {
    if intentID in j.approvals then
      var approval := j.approvals[intentID].payload;
      :- Need(approval.decision == Approved, ApprovalRevoked);
      :- Need(HasOperationFor(j.operations, intentID), JournalUnavailable);
      :- Need(approval.intentDigest == expectedDigest, InvalidIntentDigest);
      Ok((j, approval, j.operations[OperationFor(j.operations, intentID)].payload))
    else
      :- Need(intentID in j.intents, NotFound);
      var record := j.intents[intentID].payload;
      :- Need(DigestMatches(j.digests, record.intent) && record.intent.intentDigest == expectedDigest,
              InvalidIntentDigest);
      :- Need(now < record.intent.approvalDeadline && now < record.intent.startBefore, ApprovalExpired);
      :- Need(record.status == IntentAwaitingApproval, ApprovalRevoked);
      var _ :- ActiveOwner(j.operations, record.intent.enrollmentID);
      var approval := Approval(approvalID, intentID, expectedDigest, approver, osUID, Approved, now);
      var op := Operation(operationID, intentID, expectedDigest, record.intent.enrollmentID, now,
                          Queued, NotStarted, false, now, now, [], "");
      :- Need(forall k :: k in j.approvals ==> j.approvals[k].approvalID != approvalID, JournalUnavailable);
      :- Need(operationID !in j.operations && !HasOperationFor(j.operations, intentID), JournalUnavailable);
      Ok((j.(approvals := j.approvals[intentID := ApprovalRow(approvalID, expectedDigest, approval)],
             operations := j.operations[operationID := RowOfOperation(op)],
             intents := UpdateIntent(j.intents, record.(status := IntentConsumed, updatedAt := now))),
          approval, op))
  }

  function IntentForDecision(j: Journal, intentID: ID, expectedDigest: string): Result<IntentRecord> {
    var known := intentID in j.intents;
    :- Need(known, NotFound);
    var record := j.intents[intentID].payload;
    :- Need(DigestMatches(j.digests, record.intent) && record.intent.intentDigest == expectedDigest,
            InvalidIntentDigest);
    Ok(record)
  }

  ghost function RejectIntent(j: Journal, intentID: ID, expectedDigest: string, approver: ID, osUID: int,
                              now: Time, approvalID: ID): Result<(Journal, Approval)>
  {
    if intentID in j.approvals then
      var existing := j.approvals[intentID].payload;
      :- Need(existing.intentDigest == expectedDigest && existing.decision == Rejected, ApprovalRevoked);
      Ok((j, existing))
    else
      var record :- IntentForDecision(j, intentID, expectedDigest);
      :- Need(record.status == IntentAwaitingApproval, ApprovalRevoked);
      var approval := Approval(approvalID, intentID, expectedDigest, approver, osUID, Rejected, now);
      :- Need(forall k :: k in j.approvals ==> j.approvals[k].approvalID != approvalID, JournalUnavailable);
      Ok((j.(approvals := j.approvals[intentID := ApprovalRow(approvalID, expectedDigest, approval)],
             intents := UpdateIntent(j.intents, record.(status := IntentRejected, updatedAt := now))),
          approval))
  }

  ghost function RevokeIntent(j: Journal, intentID: ID, expectedDigest: string, now: Time): Result<Journal> {
    var record :- IntentForDecision(j, intentID, expectedDigest);
    :- Need(record.status !in {IntentRejected, IntentExpired, IntentRevoked, IntentCancelled}, ApprovalRevoked);
    var intents := UpdateIntent(j.intents, record.(status := IntentRevoked, updatedAt := now));
    if HasOperationFor(j.operations, intentID) then
      var op := j.operations[OperationFor(j.operations, intentID)].payload;
      if op.status == Queued && op.attempts == [] then
        var operations :- SaveOperation(j.operations, op.(status := Aborted, released := true, updatedAt := now));
        Ok(j.(intents := intents, operations := operations))
      else Ok(j.(intents := intents))
    else Ok(j.(intents := intents))
  }

  // ---- Operations and steps ------------------------------------------------

  predicate AllComplete(attempts: seq<StepAttempt>) {
    forall k :: 0 <= k < |attempts| ==> attempts[k].Complete()
  }

  /** One more than the highest attempt number this step kind already has. */
  function NextAttemptNo(attempts: seq<StepAttempt>, kind: StepKind): nat {
    if attempts == [] then 1
    else
      var last := attempts[|attempts| - 1];
      var before := NextAttemptNo(attempts[..|attempts| - 1], kind);
      if last.kind == kind && last.attemptNo >= before then last.attemptNo + 1 else before
  }

  function PrepareStep(j: Journal, operationID: ID, kind: StepKind, now: Time, stepID: ID)
    : Result<(Journal, StepAttempt)>
  {
    var supported := !BeyondReviewBoundary(kind);
    :- Need(supported, UnsupportedEnvironment);
    :- Need(operationID in j.operations, NotFound);
    var op := j.operations[operationID].payload;
    :- Need(op.status != Unknown && op.status != NeedsIntervention, TargetBlockedUnknown);
    :- Need(op.intentID in j.intents, JournalUnavailable);
    var record := j.intents[op.intentID].payload;
    :- Need(DigestMatches(j.digests, record.intent), InvalidIntentDigest);
    :- Need(record.status == IntentConsumed && !op.released && !IsTerminal(op.status) &&
            op.intentDigest == record.intent.intentDigest, ApprovalRevoked);
    :- Need(|op.attempts| < |record.intent.steps| && record.intent.steps[|op.attempts|] == kind, ScopeDenied);
    :- Need(AllComplete(op.attempts), DispatchOutcomeUnknown);
    var attempt := StepAttempt(stepID, kind, NextAttemptNo(op.attempts, kind), NotDispatched,
                               ProvenNotApplied, Unattributed, now, now, []);
    :- Need(stepID !in j.steps, JournalUnavailable);
    var operations :- SaveOperation(j.operations, op.(attempts := op.attempts + [attempt], updatedAt := now));
    Ok((j.(steps := j.steps[stepID := StepRow(op.operationID, attempt.attemptNo, attempt)],
           operations := operations),
        attempt))
  }

  /** Index of the first attempt with this step ID, or the length. */
  function FindStep(attempts: seq<StepAttempt>, stepID: ID): (index: nat)
    ensures index <= |attempts|
    ensures index < |attempts| ==> attempts[index].stepID == stepID
    ensures forall k :: 0 <= k < index ==> attempts[k].stepID != stepID
  {
    if attempts == [] || attempts[0].stepID == stepID then 0
    else 1 + FindStep(attempts[1..], stepID)
  }

  /** Stores a changed attempt in its step row and in its operation. */
  function SaveAttempt(j: Journal, operationID: ID, op: Operation, index: nat, a: StepAttempt,
                       status: OperationStatus, lastError: string, now: Time): Result<Journal>
    requires index < |op.attempts|
  {
    var operations :- SaveOperation(j.operations,
      op.(attempts := op.attempts[index := a], status := status, lastError := lastError, updatedAt := now));
    Ok(j.(steps := UpdateStep(j.steps, a, operationID), operations := operations))
  }

  function MarkDispatchPossible(j: Journal, operationID: ID, stepID: ID, now: Time): Result<Journal> {
    var known := operationID in j.operations;
    :- Need(known, NotFound);
    var op := j.operations[operationID].payload;
    :- Need(!op.released && !IsTerminal(op.status) && op.status != Unknown, TargetBlockedUnknown);
    :- Need(op.intentID in j.intents, JournalUnavailable);
    // Unlike PrepareStep, this guard reads the status column.
    :- Need(j.intents[op.intentID].status == IntentConsumed, ApprovalRevoked);
    var index := FindStep(op.attempts, stepID);
    :- Need(index < |op.attempts|, NotFound);
    var a := op.attempts[index];
    :- Need(a.Untouched(), DispatchOutcomeUnknown);
    SaveAttempt(j, operationID, op, index,
                a.(dispatch := DispatchPossible, effect := EffectUnknown, attribution := Unattributed,
                   updatedAt := now),
                op.status, op.lastError, now)
  }

  function Observed(a: StepAttempt, effect: EffectState, attribution: Attribution, evidence: seq<Evidence>,
                    now: Time): StepAttempt
  {
    a.(effect := effect, attribution := attribution, evidence := evidence, updatedAt := now,
       dispatch := if attribution == Correlated then Acknowledged else a.dispatch)
  }

  function StatusAfter(status: OperationStatus, effect: EffectState): OperationStatus {
    match effect
    case EffectUnknown => Unknown
    case OtherObserved => NeedsIntervention
    case _ => status
  }

  function ErrorAfter(lastError: string, effect: EffectState): string {
    match effect
    case EffectUnknown => "DISPATCH_OUTCOME_UNKNOWN"
    case OtherObserved => "EXTERNAL_INTERVENTION"
    case _ => lastError
  }

  /** Writes the operation status without consulting the transition table. */
  function RecordStepObservation(j: Journal, operationID: ID, stepID: ID, effect: EffectState,
                                 attribution: Attribution, evidence: seq<Evidence>, now: Time): Result<Journal>
  {
    var known := operationID in j.operations;
    :- Need(known, NotFound);
    var op := j.operations[operationID].payload;
    var index := FindStep(op.attempts, stepID);
    :- Need(index < |op.attempts|, NotFound);
    var a := op.attempts[index];
    :- Need(a.dispatch != NotDispatched, DispatchOutcomeUnknown);
    :- Need(!effect.UnrecognizedEffect?, InvalidRequest);
    SaveAttempt(j, operationID, op, index, Observed(a, effect, attribution, evidence, now),
                StatusAfter(op.status, effect), ErrorAfter(op.lastError, effect), now)
  }

  function MarkUnknown(j: Journal, operationID: ID, now: Time): Result<Journal> {
    var known := operationID in j.operations;
    :- Need(known, NotFound);
    var op := j.operations[operationID].payload;
    :- Need(CanTransition(op.status, Unknown), ScopeDenied);
    var operations :- SaveOperation(j.operations,
      op.(status := Unknown, released := false, lastError := "DISPATCH_OUTCOME_UNKNOWN", updatedAt := now));
    Ok(j.(operations := operations))
  }

  predicate Releases(status: OperationStatus) {
    status in {Succeeded, Failed, Aborted, RolledBack}
  }

  function TransitionOperation(j: Journal, operationID: ID, to: OperationStatus, verification: VerificationStatus,
                               maintenanceReleased: bool, now: Time): Result<Journal>
  {
    var known := operationID in j.operations;
    :- Need(known, NotFound);
    var op := j.operations[operationID].payload;
    :- Need(CanTransition(op.status, to), ScopeDenied);
    :- Need(to == Succeeded ==> VerificationAllowsSuccess(verification, maintenanceReleased),
            VerificationInconclusive);
    var operations :- SaveOperation(j.operations,
      op.(status := to, verification := verification, released := op.released || Releases(to),
          updatedAt := now));
    Ok(j.(operations := operations))
  }

  // ---- Backups ---------------------------------------------------------------

  predicate MatchesIntent(r: BackupRecord, i: ChangeIntent, recipe: string) {
    var e := r.ready.offline.enrollment;
    && !r.level.OtherLevel?
    && r.backupID == i.reservedBackupID && r.intentID == i.intentID && r.intentDigest == i.intentDigest
    && r.enrollmentID == i.enrollmentID && r.containerIdentity == i.containerID
    && r.deploymentGeneration == i.deploymentGeneration && r.paperTuple == i.paperTuple
    && r.targetID == e.targetID && r.dataRootIdentity == e.dataRootIdentity
    && r.bootIDBeforeStop == i.expectedBootID
    && r.sourceInventoryDigest == i.inventoryDigest && r.sourceConfigDigest == i.configDigest
    && r.sourceArtifacts == [SourceArtifact(i.fromArtifactID, i.pluginID, i.fromSHA256)]
    && r.recipeID == BACKUP_RECIPE_ID && r.recipeDigest == i.backupRecipeDigest == recipe
  }

  ghost function ReserveBackup(j: Journal, r: BackupRecord, now: Time): Result<Journal> {
    var known := r.operationID in j.operations;
    :- Need(known, NotFound);
    var op := j.operations[r.operationID].payload;
    :- Need(!op.released && op.status == Executing && |op.attempts| == 6, ScopeDenied);
    var step := op.attempts[5];
    :- Need(step.stepID == r.stepID && step.kind == S05CreateBackup && step.dispatch == DispatchPossible,
            DispatchOutcomeUnknown);
    :- Need(op.intentID in j.intents, JournalUnavailable);
    var i := j.intents[op.intentID].payload.intent;
    var _ :- ValidateReady(j.digests, r.ready, r.ready.offline.enrollment, i, op, now);
    :- Need(MatchesIntent(r, i, j.digests.recipe) && r.status == BackupReserved && r.offlineMode &&
            r.schema == BACKUP_SCHEMA && r.completedAt == ZERO_TIME && r.digestVerifiedAt == ZERO_TIME &&
            r.archiveSHA256 == "" && r.archiveSize == 0 && FreshEvidence(r.createdAt, now), InvalidRequest);
    :- Need(r.backupID !in j.backups &&
            forall k :: k in j.backups ==> j.backups[k].operationID != r.operationID, JournalUnavailable);
    Ok(j.(backups := j.backups[r.backupID := BackupRow(r.operationID, r.status, r)]))
  }

  /** No transition can promote an incomplete artifact: `BackupValid` is never a target. */
  predicate CanTransitionBackup(from: BackupStatus, to: BackupStatus) {
    match from
    case BackupReserved => to in {BackupWriting, BackupFailed, BackupUnknown, BackupOrphaned}
    case BackupWriting => to in {BackupFinalizing, BackupFailed, BackupUnknown, BackupOrphaned}
    case BackupFinalizing => to in {BackupVerifying, BackupFailed, BackupUnknown, BackupOrphaned}
    case BackupVerifying => to in {BackupFailed, BackupUnknown, BackupOrphaned}
    case _ => false
  }

  function TransitionBackup(j: Journal, id: ID, to: BackupStatus): Result<Journal> {
    var known := id in j.backups;
    :- Need(known, JournalUnavailable);
    var row := j.backups[id];
    :- Need(CanTransitionBackup(row.payload.status, to), InvalidRequest);
    Ok(j.(backups := j.backups[id := row.(status := to, payload := row.payload.(status := to))]))
  }

  /** Commits the verified metadata and the correlated S05 evidence together. */
  function CompleteBackup(j: Journal, id: ID, digest: string, size: int, ready: ReadyEvidence, now: Time)
    : Result<Journal>
  {
    var wellFormed := IsHexDigest(digest) && size > 0;
    :- Need(wellFormed, BackupNotReady);
    :- Need(id in j.backups, JournalUnavailable);
    var row := j.backups[id];
    :- Need(row.payload.status == BackupVerifying, ScopeDenied);
    :- Need(row.payload.operationID in j.operations, NotFound);
    var op := j.operations[row.payload.operationID].payload;
    :- Need(op.status == Executing && !op.released && |op.attempts| == 6, TargetBlockedUnknown);
    var a := op.attempts[5];
    :- Need(a.stepID == row.payload.stepID && a.dispatch == DispatchPossible && a.effect == EffectUnknown,
            DispatchOutcomeUnknown);
    :- Need(op.intentID in j.intents, JournalUnavailable);
    var i := j.intents[op.intentID].payload.intent;
    var _ :- ValidateReady(j.digests, ready, ready.offline.enrollment, i, op, now);
    var r := row.payload.(ready := ready, status := BackupValid, archiveSHA256 := digest,
                          archiveSize := size, digestVerifiedAt := now, completedAt := now);
    var _ :- ValidateCompleted(r);
    var done := a.(dispatch := Acknowledged, effect := ExpectedObserved, attribution := Correlated,
                   evidence := [Text("backup:" + id), Text("sha256:" + digest)], updatedAt := now);
    var operations :- SaveOperation(j.operations, op.(attempts := op.attempts[5 := done], updatedAt := now));
    Ok(j.(backups := j.backups[id := row.(status := BackupValid, payload := r)],
          steps := if done.stepID in j.steps then j.steps[done.stepID := j.steps[done.stepID].(payload := done)]
                   else j.steps,
          operations := operations))
  }

  // ---- Calls -------------------------------------------------------------------

  /** Every writing call a client of the store can make. */
  datatype Call =
    | Insert(record: IntentRecord)
    | Approve(intentID: ID, digest: string, approver: ID, osUID: int, now: Time, approvalID: ID, operationID: ID)
    | Reject(intentID: ID, digest: string, approver: ID, osUID: int, now: Time, approvalID: ID)
    | Revoke(intentID: ID, digest: string, now: Time)
    | Prepare(operationID: ID, kind: StepKind, now: Time, stepID: ID)
    | MarkPossible(operationID: ID, stepID: ID, now: Time)
    | Record(operationID: ID, stepID: ID, effect: EffectState, attribution: Attribution,
             evidence: seq<Evidence>, now: Time)
    | MarkUnresolved(operationID: ID, now: Time)
    | Transition(operationID: ID, to: OperationStatus, verification: VerificationStatus,
                 maintenanceReleased: bool, now: Time)
    | Reserve(backup: BackupRecord, now: Time)
    | MoveBackup(backupID: ID, status: BackupStatus)
    | Complete(backupID: ID, archiveDigest: string, size: int, ready: ReadyEvidence, now: Time)

  ghost function Commit(j: Journal, call: Call): Result<Journal> {
    match call
    case Insert(record) => InsertIntent(j, record)
    case Approve(intentID, digest, approver, osUID, now, approvalID, operationID) =>
      var t :- ApproveIntent(j, intentID, digest, approver, osUID, now, approvalID, operationID); Ok(t.0)
    case Reject(intentID, digest, approver, osUID, now, approvalID) =>
      var t :- RejectIntent(j, intentID, digest, approver, osUID, now, approvalID); Ok(t.0)
    case Revoke(intentID, digest, now) => RevokeIntent(j, intentID, digest, now)
    case Prepare(operationID, kind, now, stepID) =>
      var t :- PrepareStep(j, operationID, kind, now, stepID); Ok(t.0)
    case MarkPossible(operationID, stepID, now) => MarkDispatchPossible(j, operationID, stepID, now)
    case Record(operationID, stepID, effect, attribution, evidence, now) =>
      RecordStepObservation(j, operationID, stepID, effect, attribution, evidence, now)
    case MarkUnresolved(operationID, now) => MarkUnknown(j, operationID, now)
    case Transition(operationID, to, verification, maintenanceReleased, now) =>
      TransitionOperation(j, operationID, to, verification, maintenanceReleased, now)
    case Reserve(r, now) => ReserveBackup(j, r, now)
    case MoveBackup(id, status) => TransitionBackup(j, id, status)
    case Complete(id, digest, size, ready, now) => CompleteBackup(j, id, digest, size, ready, now)
  }

  /** The journal after a call, committed or rolled back. */
  ghost function Apply(j: Journal, call: Call): Journal {
    match Commit(j, call)
    case Ok(next) => next
    case Err(_) => j
  }

  ghost function ApplyAll(j: Journal, calls: seq<Call>): Journal {
    if calls == [] then j else Apply(ApplyAll(j, calls[..|calls| - 1]), calls[|calls| - 1])
  }
}
