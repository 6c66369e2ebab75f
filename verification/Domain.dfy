/**
 Vocabulary and pure evidence rules of the change workflow: the statuses, the
 frozen intent, the operation with its step attempts, the safety and stop
 evidence, and the validators that decide whether evidence may be used.

 Times are nanoseconds, with 0 for the zero time. SHA-256 over canonical JSON
 is a parameter (`Digests`), so nothing proved here depends on how it hashes.
 */
module Domain {

  type ID = string
  type Time = int
  type Bytes = seq<int>

  const SECOND: int := 1_000_000_000
  const ZERO_TIME: Time := 0

  datatype ErrorCode =
    | UnsupportedEnvironment | ScopeDenied | ApprovalRequired | ApprovalExpired | ApprovalRevoked
    | IntentStale | PreconditionUnavailable | TargetBusy | TargetBlockedUnknown | IdempotencyConflict
    | BackupNotReady | DispatchOutcomeUnknown | VerificationInconclusive | ExternalIntervention
    | JournalUnavailable | ClockUnsafe | InvalidIntentDigest | NotFound | InvalidRequest

  datatype Result<+T> = Ok(value: T) | Err(code: ErrorCode) {
    predicate IsFailure() { Err? }
    function PropagateFailure<U>(): Result<U> requires Err? { Err(code) }
    function Extract(): T requires Ok? { value }
  }

  datatype Verdict = Pass | Fail(code: ErrorCode) {
    predicate IsFailure() { Fail? }
    function PropagateFailure<U>(): Result<U> requires Fail? { Err(code) }
  }

  function Need(condition: bool, code: ErrorCode): Verdict {
    if condition then Pass else Fail(code)
  }

  // ---- Statuses ----------------------------------------------------------

  datatype IntentStatus =
    | IntentProposed | IntentAwaitingApproval | IntentApproved | IntentConsumed | IntentRejected
    | IntentExpired | IntentRevoked | IntentCancelled | IntentOutdated

  datatype OperationStatus =
    | Queued | Preparing | Executing | Verifying | Succeeded | Failed | Aborted | Unknown
    | RollbackRequired | RollingBack | RolledBack | RollbackFailed | NeedsIntervention

  datatype VerificationStatus =
    | NotStarted | Running | VerificationPass | VerificationFail | Inconclusive

  datatype DispatchState = NotDispatched | DispatchPossible | Acknowledged

  datatype EffectState =
    | ProvenNotApplied | ExpectedObserved | OtherObserved | EffectUnknown
    | UnrecognizedEffect(text: string)

  datatype Attribution = Correlated | Unattributed | Conflicting

  datatype StepKind =
    | S00Claim | S01Revalidate | S02Maintenance | S03GracefulStop | S04OfflineRevalidation
    | S05CreateBackup | S06Replace | S07Start | S08Verify | S09Release | S10Finalize
    | OtherStep(name: string)

  const FIXED_STEPS: seq<StepKind> :=
    [S00Claim, S01Revalidate, S02Maintenance, S03GracefulStop, S04OfflineRevalidation, S05CreateBackup,
     S06Replace, S07Start, S08Verify, S09Release, S10Finalize]

  predicate BeyondReviewBoundary(kind: StepKind) {
    kind.S06Replace? || kind.S07Start? || kind.S08Verify? || kind.S09Release? || kind.S10Finalize?
  }

  predicate CanTransition(from: OperationStatus, to: OperationStatus) {
    match from
    case Queued => to in {Preparing, Aborted, Unknown, NeedsIntervention}
    case Preparing => to in {Executing, Aborted, Unknown, NeedsIntervention}
    case Executing => to in {Verifying, Failed, Unknown, RollbackRequired, NeedsIntervention}
    case Verifying => to in {Succeeded, Failed, Unknown, RollbackRequired, NeedsIntervention}
    case RollbackRequired => to in {RollingBack, NeedsIntervention}
    case RollingBack => to in {RolledBack, RollbackFailed, Unknown, NeedsIntervention}
    case _ => false
  }

  predicate IsTerminal(status: OperationStatus) {
    status in {Succeeded, Failed, Aborted, RolledBack, RollbackFailed, NeedsIntervention}
  }

  predicate VerificationAllowsSuccess(verification: VerificationStatus, maintenanceReleased: bool) {
    verification == VerificationPass && maintenanceReleased
  }

  // ---- Records -----------------------------------------------------------

  datatype Enrollment = Enrollment(
    targetID: ID, enrollmentID: ID, deploymentGeneration: int, containerID: ID,
    dataRootIdentity: string, policyRevision: string, policyDigest: string, paperTuple: string,
    rest: string)

  /** The frozen intent. `rest` stands for the fields no rule below reads. */
  datatype ChangeIntent = ChangeIntent(
    intentID: ID, clientRequestID: ID, principalID: ID, enrollmentID: ID,
    deploymentGeneration: int, containerID: ID, paperTuple: string, expectedBootID: ID,
    pluginID: ID, fromArtifactID: ID, fromSHA256: string,
    policyRevision: string, policyDigest: string, inventoryDigest: string, configDigest: string,
    steps: seq<StepKind>, reservedBackupID: ID, backupRecipeDigest: string,
    approvalDeadline: Time, startBefore: Time, executionBudgetSeconds: int,
    rest: string, intentDigest: string)

  datatype IntentRecord = IntentRecord(
    intent: ChangeIntent, status: IntentStatus, proposalDigest: string, updatedAt: Time)

  datatype Decision = Approved | Rejected

  datatype Approval = Approval(
    approvalID: ID, intentID: ID, intentDigest: string, approver: ID, osUID: int,
    decision: Decision, decidedAt: Time)

  datatype StepAttempt = StepAttempt(
    stepID: ID, kind: StepKind, attemptNo: nat, dispatch: DispatchState, effect: EffectState,
    attribution: Attribution, preparedAt: Time, updatedAt: Time, evidence: seq<Evidence>)
  {
    predicate Complete() {
      dispatch == Acknowledged && effect == ExpectedObserved && attribution == Correlated
    }
    predicate Untouched() {
      dispatch == NotDispatched && effect == ProvenNotApplied
    }
  }

  datatype Operation = Operation(
    operationID: ID, intentID: ID, intentDigest: string, enrollmentID: ID, epoch: int,
    status: OperationStatus, verification: VerificationStatus, released: bool,
    createdAt: Time, updatedAt: Time, attempts: seq<StepAttempt>, lastError: string)

  datatype StopState =
    | StopNotRequested | StopDispatchPossible | StopStopping | StopConfirmed | StopFailed | StopUnknown

  datatype StopEvidence = StopEvidence(
    state: StopState, operationID: ID, stepID: ID, containerID: ID, bootID: ID,
    requestedAt: Time, observedAt: Time, finishedAt: Time, lifecycleAvailable: bool,
    running: bool, exitCode: int, oomKilled: bool, runtimeTerminal: bool, graceful: bool,
    attribution: Attribution, references: seq<string>)

  datatype SafetyObservation = SafetyObservation(
    available: bool, observedAt: Time, enrollment: Enrollment, bootID: ID,
    inventoryDigest: string, configDigest: string, sourceArtifactID: ID, sourceSHA256: string,
    admissionClosed: bool, maintenance: bool, players: int, processStopped: bool,
    rootExists: bool, noConflictingWriter: bool, references: seq<string>)

  datatype ReadyEvidence = ReadyEvidence(
    beforeStop: SafetyObservation, offline: SafetyObservation, stop: StopEvidence)

  datatype StopRequest = StopRequest(
    operationID: ID, stepID: ID, containerID: ID, bootID: ID, requestedAt: Time)

  datatype MaintenanceReceipt = MaintenanceReceipt(
    operationID: ID, stepID: ID, closedAt: Time, references: seq<string>)

  /** What a step observation stores; the source keeps each value as JSON text. */
  datatype Evidence =
    | ClaimEvidence(operationID: ID, intentDigest: string, epoch: int)
    | SafetyEvidence(observation: SafetyObservation)
    | MaintenanceEvidence(receipt: MaintenanceReceipt, closed: SafetyObservation)
    | StopReady(ready: ReadyEvidence)
    | Text(text: string)

  datatype BackupStatus =
    | BackupReserved | BackupWriting | BackupFinalizing | BackupVerifying
    | BackupValid | BackupFailed | BackupUnknown | BackupOrphaned

  datatype EvidenceLevel = FakeTarget | LocalPaper | OtherLevel(text: string)

  datatype SourceArtifact = SourceArtifact(artifactID: ID, pluginID: ID, sha256: string)

  const BACKUP_SCHEMA := "gar.backup.v1"
  const BACKUP_RECIPE_ID := "gar.offline-tar.v1"

  datatype BackupRecord = BackupRecord(
    level: EvidenceLevel, backupID: ID, schema: string, targetID: ID, enrollmentID: ID,
    deploymentGeneration: int, containerIdentity: ID, dataRootIdentity: string, paperTuple: string,
    bootIDBeforeStop: ID, intentID: ID, intentDigest: string, operationID: ID, stepID: ID,
    sourceInventoryDigest: string, sourceConfigDigest: string, sourceArtifacts: seq<SourceArtifact>,
    recipeID: string, recipeDigest: string, createdAt: Time, completedAt: Time,
    offlineMode: bool, archiveSize: int, archiveSHA256: string, digestVerifiedAt: Time,
    status: BackupStatus, ready: ReadyEvidence)

  /** The hash functions the workflow trusts; every theorem holds for any choice of them. */
  datatype Digests = Digests(
    intent: ChangeIntent -> string, enrollment: Enrollment -> string,
    content: Bytes -> string, recipe: string)

  predicate DigestMatches(digests: Digests, i: ChangeIntent) {
    digests.intent(i.(intentDigest := "")) == i.intentDigest
  }

  predicate IsHexDigest(digest: string) {
    |digest| == 64 &&
    forall k :: 0 <= k < 64 ==>
                  || '0' <= digest[k] <= '9' || 'a' <= digest[k] <= 'f' || 'A' <= digest[k] <= 'F'
  }

  // ---- Evidence rules ----------------------------------------------------

  predicate FreshEvidence(at: Time, now: Time) {
    at != ZERO_TIME && at <= now && now - at <= 5 * SECOND
  }

  /** Never infers causation from a stopped container or a timeout. */
  function ClassifyStop(dispatch: DispatchState, e: StopEvidence, now: Time): StopState {
    if dispatch == NotDispatched then StopNotRequested
    else if !e.lifecycleAvailable || !FreshEvidence(e.observedAt, now) then StopUnknown
    else if e.running then StopStopping
    else if e.oomKilled || e.exitCode != 0 then StopFailed
    else if e.requestedAt == ZERO_TIME || e.requestedAt > e.finishedAt || e.finishedAt > e.observedAt ||
            !e.runtimeTerminal || !e.graceful || e.attribution != Correlated ||
            e.operationID == "" || e.stepID == "" || e.containerID == "" || e.bootID == "" ||
            |e.references| == 0 then StopUnknown
    else StopConfirmed
  }

  /** The evidence of one observation of a stop, classified for the request that caused it. */
  function JudgeStop(request: StopRequest, e: StopEvidence, now: Time): StopEvidence {
    if e.operationID != request.operationID || e.stepID != request.stepID ||
       e.containerID != request.containerID || e.bootID != request.bootID ||
       e.requestedAt != request.requestedAt
    then e.(state := StopUnknown)
    else e.(state := ClassifyStop(DispatchPossible, e, now))
  }

  function ValidateSafety(digests: Digests, o: SafetyObservation, enrollment: Enrollment, i: ChangeIntent, now: Time)
    : Result<()>
  {
    var available :=
      o.available && FreshEvidence(o.observedAt, now) && |o.references| > 0 &&
      o.inventoryDigest != "" && o.configDigest != "" && o.sourceArtifactID != "" &&
      o.sourceSHA256 != "" && o.bootID != "" && o.enrollment.targetID != "" &&
      o.enrollment.enrollmentID != "" && o.enrollment.containerID != "" &&
      o.enrollment.dataRootIdentity != "";
    :- Need(available, PreconditionUnavailable);
    :- Need(digests.enrollment(o.enrollment) == digests.enrollment(enrollment) &&
            i.enrollmentID == enrollment.enrollmentID &&
            i.deploymentGeneration == enrollment.deploymentGeneration &&
            i.containerID == enrollment.containerID && i.paperTuple == enrollment.paperTuple &&
            i.policyDigest == enrollment.policyDigest && i.policyRevision == enrollment.policyRevision &&
            o.bootID == i.expectedBootID && o.inventoryDigest == i.inventoryDigest &&
            o.configDigest == i.configDigest && o.sourceArtifactID == i.fromArtifactID &&
            o.sourceSHA256 == i.fromSHA256, IntentStale);
    :- Need(o.noConflictingWriter, TargetBusy);
    :- Need(o.rootExists, PreconditionUnavailable);
    Ok(())
  }

  function ValidateReady(digests: Digests, e: ReadyEvidence, enrollment: Enrollment, i: ChangeIntent,
                         op: Operation, now: Time): Result<()>
  {
    var genuine := DigestMatches(digests, i);
    :- Need(genuine, InvalidIntentDigest);
    :- Need(op.intentID == i.intentID && op.intentDigest == i.intentDigest &&
            op.enrollmentID == i.enrollmentID, InvalidIntentDigest);
    :- Need(!op.released && op.status == Executing, TargetBlockedUnknown);
    :- Need(|op.attempts| >= 4 && op.attempts[3].stepID == e.stop.stepID &&
            op.attempts[3].kind == S03GracefulStop && op.attempts[3].Complete(), PreconditionUnavailable);
    // The zero-player observation is historical: it was fresh when the stop was requested.
    var _ :- ValidateSafety(digests, e.beforeStop, enrollment, i, e.stop.requestedAt);
    var _ :- ValidateSafety(digests, e.offline, enrollment, i, now);
    :- Need(e.beforeStop.admissionClosed && e.beforeStop.maintenance && e.beforeStop.players == 0 &&
            !e.beforeStop.processStopped && e.offline.admissionClosed && e.offline.processStopped, IntentStale);
    :- Need(e.stop.operationID == op.operationID && e.stop.containerID == i.containerID &&
            e.stop.bootID == i.expectedBootID && e.stop.state == StopConfirmed &&
            ClassifyStop(Acknowledged, e.stop, e.stop.observedAt) == StopConfirmed, PreconditionUnavailable);
    :- Need(e.offline.observedAt >= e.stop.finishedAt, PreconditionUnavailable);
    Ok(())
  }

  function ValidateCompleted(r: BackupRecord): Result<()> {
    var complete :=
      r.status == BackupValid && r.schema == BACKUP_SCHEMA && r.offlineMode && r.archiveSize > 0 &&
      |r.archiveSHA256| == 64 && r.digestVerifiedAt >= r.createdAt &&
      r.completedAt >= r.digestVerifiedAt && r.completedAt != ZERO_TIME;
    :- Need(complete, BackupNotReady);
    Ok(())
  }

  /** The single order of events a finished backup must tell. */
  ghost predicate Timeline(e: ReadyEvidence, completedAt: Time) {
    && e.beforeStop.observedAt <= e.stop.requestedAt <= e.beforeStop.observedAt + 5 * SECOND
    && e.stop.requestedAt <= e.stop.finishedAt <= e.stop.observedAt
    && e.stop.finishedAt <= e.offline.observedAt <= completedAt <= e.offline.observedAt + 5 * SECOND
    && e.beforeStop.players == 0 && e.beforeStop.admissionClosed && !e.beforeStop.processStopped
    && e.offline.processStopped && e.offline.admissionClosed
    && !e.stop.running && !e.stop.oomKilled && e.stop.exitCode == 0 && e.stop.graceful
    && e.beforeStop.maintenance
    && e.beforeStop.noConflictingWriter && e.beforeStop.rootExists
    && e.offline.noConflictingWriter && e.offline.rootExists
  }

  /** The target answered, recently and in full. */
  ghost predicate Informative(o: SafetyObservation, now: Time) {
    && o.available && o.observedAt != ZERO_TIME && o.observedAt <= now <= o.observedAt + 5 * SECOND &&
      o.references != []
    && "" !in {o.inventoryDigest, o.configDigest, o.sourceArtifactID, o.sourceSHA256, o.bootID}
    && "" !in {o.enrollment.targetID, o.enrollment.enrollmentID, o.enrollment.containerID,
               o.enrollment.dataRootIdentity}
  }

  /** What was observed is the enrolled deployment, as the intent froze it. */
  ghost predicate AsFrozen(digests: Digests, o: SafetyObservation, enrollment: Enrollment, i: ChangeIntent) {
    && digests.enrollment(o.enrollment) == digests.enrollment(enrollment)
    && i.enrollmentID == enrollment.enrollmentID && i.deploymentGeneration == enrollment.deploymentGeneration
    && i.containerID == enrollment.containerID && i.paperTuple == enrollment.paperTuple
    && i.policyDigest == enrollment.policyDigest && i.policyRevision == enrollment.policyRevision
    && (o.bootID, o.inventoryDigest, o.configDigest) == (i.expectedBootID, i.inventoryDigest, i.configDigest)
    && (o.sourceArtifactID, o.sourceSHA256) == (i.fromArtifactID, i.fromSHA256)
  }

  /** When an observation is safe to act on, and what it is refused for otherwise. */
  lemma SafetyIff(digests: Digests, o: SafetyObservation, enrollment: Enrollment, i: ChangeIntent, now: Time)
    ensures var r := ValidateSafety(digests, o, enrollment, i, now);
            && (r.Ok? <==>
                Informative(o, now) && AsFrozen(digests, o, enrollment, i) && o.noConflictingWriter && o.rootExists)
            && (r == Err(IntentStale) <==> Informative(o, now) && !AsFrozen(digests, o, enrollment, i))
            && (r == Err(TargetBusy) <==>
                Informative(o, now) && AsFrozen(digests, o, enrollment, i) && !o.noConflictingWriter)
            && (r.Err? ==> r.code in {PreconditionUnavailable, IntentStale, TargetBusy})
  {
  }

  /** Whether the stop evidence is a confirmed graceful exit of the requested process. */
  ghost predicate CleanStop(stop: StopEvidence) {
    && stop.state == StopConfirmed && stop.lifecycleAvailable && stop.observedAt != ZERO_TIME
    && !stop.running && !stop.oomKilled && stop.exitCode == 0 && stop.runtimeTerminal && stop.graceful
    && stop.requestedAt != ZERO_TIME && stop.requestedAt <= stop.finishedAt <= stop.observedAt
    && stop.attribution == Correlated && stop.references != []
    && "" !in {stop.operationID, stop.stepID, stop.containerID, stop.bootID}
  }

  /** Exactly which evidence makes an offline server ready for its backup. */
  lemma ReadyIff(digests: Digests, e: ReadyEvidence, enrollment: Enrollment, i: ChangeIntent, op: Operation, now: Time)
    ensures ValidateReady(digests, e, enrollment, i, op, now).Ok? <==>
            && digests.intent(i.(intentDigest := "")) == i.intentDigest
            && (op.intentID, op.intentDigest, op.enrollmentID) == (i.intentID, i.intentDigest, i.enrollmentID)
            && !op.released && op.status == Executing && |op.attempts| > 3
            && op.attempts[3].stepID == e.stop.stepID && op.attempts[3].kind == S03GracefulStop
            && op.attempts[3].dispatch == Acknowledged && op.attempts[3].effect == ExpectedObserved
            && op.attempts[3].attribution == Correlated
            && ValidateSafety(digests, e.beforeStop, enrollment, i, e.stop.requestedAt).Ok?
            && ValidateSafety(digests, e.offline, enrollment, i, now).Ok?
            && e.beforeStop.admissionClosed && e.beforeStop.maintenance && e.beforeStop.players == 0
            && !e.beforeStop.processStopped && e.offline.admissionClosed && e.offline.processStopped
            && e.stop.operationID == op.operationID && e.stop.containerID == i.containerID
            && e.stop.bootID == i.expectedBootID
            && CleanStop(e.stop) && e.stop.finishedAt <= e.offline.observedAt
  {
    hide ValidateSafety;
  }

  lemma ReadyEvidenceTellsOneTimeline(digests: Digests, e: ReadyEvidence, enrollment: Enrollment,
                                      i: ChangeIntent, op: Operation, now: Time)
    requires ValidateReady(digests, e, enrollment, i, op, now).Ok?
    ensures Timeline(e, now)
    ensures e.stop.operationID == op.operationID && |op.attempts| > 3 && e.stop.stepID == op.attempts[3].stepID
    ensures e.beforeStop.bootID == e.offline.bootID == e.stop.bootID == i.expectedBootID
    ensures AsFrozen(digests, e.beforeStop, enrollment, i) && AsFrozen(digests, e.offline, enrollment, i)
  {
  }
}
