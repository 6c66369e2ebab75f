/**
 The store itself: tables that transactions update in place. Each method is one
 immediate transaction and is proved to do exactly what its function in
 `Journal` says; a method that returns an error has changed nothing.
 */
module Store {
  import opened Domain
  import opened J = Journal
  import opened JournalSafety

  class Store {
    const digests: Digests
    var intents: Intents
    var approvals: Approvals
    var operations: Operations
    var steps: Steps
    var backups: Backups

    ghost function State(): J.Journal
      reads this
    {
      Journal(digests, intents, approvals, operations, steps, backups)
    }

    constructor (digests: Digests)
      ensures State() == Empty(digests) && Consistent(State())
    {
      this.digests := digests;
      intents, approvals, operations, steps, backups := map[], map[], map[], map[], map[];
    }

    method PutIntent(record: IntentRecord) returns (r: Result<(IntentRecord, bool)>)
      requires Consistent(State())
      modifies this
      ensures match J.PutIntent(old(State()), record)
              case Ok(t) => State() == t.0 && r == Ok((t.1, t.2))
              case Err(code) => State() == old(State()) && r == Err(code)
      ensures StepGood(old(State()), State())
    {
      hide Consistent, StepGood;
      CallGood(State(), Insert(record));
      UnchangedIsGood(State());
      var i := record.intent;
      if k :| k in intents && SameClientKey(intents[k], i.principalID, i.enrollmentID, i.clientRequestID) {
        OneHolderOfKey(State(), k, HolderOfKey(intents, i.principalID, i.enrollmentID, i.clientRequestID));
        if intents[k].payload.proposalDigest != record.proposalDigest {
          return Err(IdempotencyConflict);
        }
        return Ok((intents[k].payload, false));
      }
      if i.intentID in intents {
        return Err(JournalUnavailable);
      }
      intents := intents[i.intentID := RowOfIntent(record)];
      return Ok((record, true));
    }

    method ApproveIntent(intentID: ID, expectedDigest: string, approver: ID, osUID: int, now: Time,
                         approvalID: ID, operationID: ID) returns (r: Result<(Approval, Operation)>)
      requires Consistent(State())
      modifies this
      ensures var spec := J.ApproveIntent(old(State()), intentID, expectedDigest, approver, osUID, now,
                                                approvalID, operationID);
              match spec
              case Ok(t) => State() == t.0 && r == Ok((t.1, t.2))
              case Err(code) => State() == old(State()) && r == Err(code)
      ensures StepGood(old(State()), State())
    {
      hide Consistent, StepGood;
      ghost var before := State();
      CallGood(before, Approve(intentID, expectedDigest, approver, osUID, now, approvalID, operationID));
      if intentID in approvals {
        var approval := approvals[intentID].payload;
        if approval.decision != Approved {
          return Err(ApprovalRevoked);
        }
        OperationExactlyForApproval(before, intentID);
        var k :| k in operations && operations[k].intentID == intentID;
        OneOperationPerIntent(before, k, OperationFor(operations, intentID));
        if approval.intentDigest != expectedDigest {
          return Err(InvalidIntentDigest);
        }
        return Ok((approval, operations[k].payload));
      }
      OperationExactlyForApproval(before, intentID);
      if intentID !in intents {
        return Err(NotFound);
      }
      var record := intents[intentID].payload;
      if !DigestMatches(digests, record.intent) || record.intent.intentDigest != expectedDigest {
        return Err(InvalidIntentDigest);
      }
      if now >= record.intent.approvalDeadline || now >= record.intent.startBefore {
        return Err(ApprovalExpired);
      }
      if record.status != IntentAwaitingApproval {
        return Err(ApprovalRevoked);
      }
      var owner := FindOwner(record.intent.enrollmentID);
      if owner.Err? {
        return Err(owner.code);
      }
      if k :| k in approvals && approvals[k].approvalID == approvalID {
        return Err(JournalUnavailable);
      }
      if operationID in operations {
        return Err(JournalUnavailable);
      }
      var approval := Approval(approvalID, intentID, expectedDigest, approver, osUID, Approved, now);
      var op := Operation(operationID, intentID, expectedDigest, record.intent.enrollmentID, now,
                          Queued, NotStarted, false, now, now, [], "");
      approvals := approvals[intentID := ApprovalRow(approvalID, expectedDigest, approval)];
      operations := operations[operationID := RowOfOperation(op)];
      intents := UpdateIntent(intents, record.(status := IntentConsumed, updatedAt := now));
      return Ok((approval, op));
    }

    /** The owner query reads the index and stops at its first row. */
    method FindOwner(enrollmentID: ID) returns (r: Result<()>)
      requires Consistent(State())
      ensures r == ActiveOwner(operations, enrollmentID)
    {
      hide ActiveOwner;
      SomeOwner(operations, enrollmentID);
      OnlyTwoOwnerErrors(operations, enrollmentID);
      if k :| k in operations && operations[k].enrollmentID == enrollmentID && !operations[k].released {
        assert Owns(operations[k], enrollmentID);
        assert forall m :: m in operations && Owns(operations[m], enrollmentID) ==> m == k;
        if operations[k].status in {Unknown, NeedsIntervention} {
          return Err(TargetBlockedUnknown);
        }
        return Err(TargetBusy);
      }
      assert forall k :: k in operations ==> !Owns(operations[k], enrollmentID);
      return Ok(());
    }

    method RejectIntent(intentID: ID, expectedDigest: string, approver: ID, osUID: int, now: Time, approvalID: ID)
      returns (r: Result<Approval>)
      requires Consistent(State())
      modifies this
      ensures match J.RejectIntent(old(State()), intentID, expectedDigest, approver, osUID, now, approvalID)
              case Ok(t) => State() == t.0 && r == Ok(t.1)
              case Err(code) => State() == old(State()) && r == Err(code)
      ensures StepGood(old(State()), State())
    {
      hide Consistent, StepGood;
      CallGood(State(), Reject(intentID, expectedDigest, approver, osUID, now, approvalID));
      if intentID in approvals {
        var existing := approvals[intentID].payload;
        if existing.intentDigest != expectedDigest || existing.decision != Rejected {
          return Err(ApprovalRevoked);
        }
        return Ok(existing);
      }
      if intentID !in intents {
        return Err(NotFound);
      }
      var record := intents[intentID].payload;
      if !DigestMatches(digests, record.intent) || record.intent.intentDigest != expectedDigest {
        return Err(InvalidIntentDigest);
      }
      if record.status != IntentAwaitingApproval {
        return Err(ApprovalRevoked);
      }
      if k :| k in approvals && approvals[k].approvalID == approvalID {
        return Err(JournalUnavailable);
      }
      var approval := Approval(approvalID, intentID, expectedDigest, approver, osUID, Rejected, now);
      approvals := approvals[intentID := ApprovalRow(approvalID, expectedDigest, approval)];
      intents := UpdateIntent(intents, record.(status := IntentRejected, updatedAt := now));
      return Ok(approval);
    }

    method RevokeIntent(intentID: ID, expectedDigest: string, now: Time) returns (r: Result<()>)
      requires Consistent(State())
      modifies this
      ensures match J.RevokeIntent(old(State()), intentID, expectedDigest, now)
              case Ok(next) => State() == next && r.Ok?
              case Err(code) => State() == old(State()) && r == Err(code)
      ensures StepGood(old(State()), State())
    {
      hide Consistent, StepGood;
      ghost var before := State();
      CallGood(before, Revoke(intentID, expectedDigest, now));
      if intentID !in intents {
        return Err(NotFound);
      }
      var record := intents[intentID].payload;
      if !DigestMatches(digests, record.intent) || record.intent.intentDigest != expectedDigest {
        return Err(InvalidIntentDigest);
      }
      if record.status in {IntentRejected, IntentExpired, IntentRevoked, IntentCancelled} {
        return Err(ApprovalRevoked);
      }
      intents := UpdateIntent(intents, record.(status := IntentRevoked, updatedAt := now));
      if k :| k in operations && operations[k].intentID == intentID {
        OneOperationPerIntent(before, k, OperationFor(operations, intentID));
        OperationFacts(before, k);
        var op := operations[k].payload;
        if op.status == Queued && op.attempts == [] {
          operations := SaveOperation(operations, op.(status := Aborted, released := true, updatedAt := now)).value;
        }
      }
      return Ok(());
    }

    method PrepareStep(operationID: ID, kind: StepKind, now: Time, stepID: ID) returns (r: Result<StepAttempt>)
      requires Consistent(State())
      modifies this
      ensures match J.PrepareStep(old(State()), operationID, kind, now, stepID)
              case Ok(t) => State() == t.0 && r == Ok(t.1)
              case Err(code) => State() == old(State()) && r == Err(code)
      ensures StepGood(old(State()), State())
    {
      hide Consistent, StepGood, StepsOK, AttemptsHaveRows, DistinctSteps;
      CallGood(State(), Prepare(operationID, kind, now, stepID));
      if operationID in operations { OperationFacts(State(), operationID); }
      if BeyondReviewBoundary(kind) {
        return Err(UnsupportedEnvironment);
      }
      if operationID !in operations {
        return Err(NotFound);
      }
      var op := operations[operationID].payload;
      if op.status == Unknown || op.status == NeedsIntervention {
        return Err(TargetBlockedUnknown);
      }
      var record := intents[op.intentID].payload;
      if !DigestMatches(digests, record.intent) {
        return Err(InvalidIntentDigest);
      }
      if record.status != IntentConsumed || op.released || IsTerminal(op.status) ||
         op.intentDigest != record.intent.intentDigest {
        return Err(ApprovalRevoked);
      }
      if |op.attempts| >= |record.intent.steps| || record.intent.steps[|op.attempts|] != kind {
        return Err(ScopeDenied);
      }
      var complete := PreviousComplete(op.attempts);
      if !complete {
        return Err(DispatchOutcomeUnknown);
      }
      var attemptNo := NumberAttempt(op.attempts, kind);
      if stepID in steps {
        return Err(JournalUnavailable);
      }
      var attempt := StepAttempt(stepID, kind, attemptNo, NotDispatched, ProvenNotApplied, Unattributed, now, now, []);
      steps := steps[stepID := StepRow(op.operationID, attempt.attemptNo, attempt)];
      operations := SaveOperation(operations, op.(attempts := op.attempts + [attempt], updatedAt := now)).value;
      return Ok(attempt);
    }

    method PreviousComplete(attempts: seq<StepAttempt>) returns (complete: bool)
      ensures complete == AllComplete(attempts)
    {
      for n := 0 to |attempts|
        invariant AllComplete(attempts[..n])
      {
        if !attempts[n].Complete() {
          return false;
        }
      }
      assert attempts[..|attempts|] == attempts;
      return true;
    }

    method NumberAttempt(attempts: seq<StepAttempt>, kind: StepKind) returns (attemptNo: nat)
      ensures attemptNo == NextAttemptNo(attempts, kind)
      ensures attemptNo >= 1
      ensures forall n :: 0 <= n < |attempts| && attempts[n].kind == kind ==> attempts[n].attemptNo < attemptNo
    {
      attemptNo := 1;
      for n := 0 to |attempts|
        invariant attemptNo == NextAttemptNo(attempts[..n], kind) && attemptNo >= 1
        invariant forall m :: 0 <= m < n && attempts[m].kind == kind ==> attempts[m].attemptNo < attemptNo
      {
        assert attempts[..n + 1][..n] == attempts[..n];
        if attempts[n].kind == kind && attempts[n].attemptNo >= attemptNo {
          attemptNo := attempts[n].attemptNo + 1;
        }
      }
      assert attempts[..|attempts|] == attempts;
    }

    /** The search of updateAttempt: the first attempt of the operation with this step ID. */
    method FindAttempt(attempts: seq<StepAttempt>, stepID: ID) returns (index: nat)
      ensures index == FindStep(attempts, stepID)
    {
      index := 0;
      while index < |attempts| && attempts[index].stepID != stepID
        invariant index <= |attempts|
        invariant forall k :: 0 <= k < index ==> attempts[k].stepID != stepID
      {
        index := index + 1;
      }
    }

    method MarkDispatchPossible(operationID: ID, stepID: ID, now: Time) returns (r: Result<()>)
      requires Consistent(State())
      modifies this
      ensures match J.MarkDispatchPossible(old(State()), operationID, stepID, now)
              case Ok(next) => State() == next && r.Ok?
              case Err(code) => State() == old(State()) && r == Err(code)
      ensures StepGood(old(State()), State())
    {
      hide Consistent, StepGood, StepsOK, AttemptsHaveRows, DistinctSteps;
      CallGood(State(), MarkPossible(operationID, stepID, now));
      if operationID in operations { OperationFacts(State(), operationID); }
      if operationID !in operations {
        return Err(NotFound);
      }
      var op := operations[operationID].payload;
      if op.released || IsTerminal(op.status) || op.status == Unknown {
        return Err(TargetBlockedUnknown);
      }
      if intents[op.intentID].status != IntentConsumed {
        return Err(ApprovalRevoked);
      }
      var index := FindAttempt(op.attempts, stepID);
      if index == |op.attempts| {
        return Err(NotFound);
      }
      var a := op.attempts[index];
      if !a.Untouched() {
        return Err(DispatchOutcomeUnknown);
      }
      var marked := a.(dispatch := DispatchPossible, effect := EffectUnknown, attribution := Unattributed,
                       updatedAt := now);
      steps := UpdateStep(steps, marked, operationID);
      operations := SaveOperation(operations, op.(attempts := op.attempts[index := marked], updatedAt := now)).value;
      return Ok(());
    }

    method RecordStepObservation(operationID: ID, stepID: ID, effect: EffectState, attribution: Attribution,
                                 evidence: seq<Evidence>, now: Time) returns (r: Result<()>)
      requires Consistent(State())
      modifies this
      ensures match J.RecordStepObservation(old(State()), operationID, stepID, effect, attribution, evidence, now)
              case Ok(next) => State() == next && r.Ok?
              case Err(code) => State() == old(State()) && r == Err(code)
      ensures StepGood(old(State()), State())
    {
      hide Consistent, StepGood, StepsOK, AttemptsHaveRows, DistinctSteps;
      CallGood(State(), Record(operationID, stepID, effect, attribution, evidence, now));
      if operationID in operations { OperationFacts(State(), operationID); }
      if operationID !in operations {
        return Err(NotFound);
      }
      var op := operations[operationID].payload;
      var index := FindAttempt(op.attempts, stepID);
      if index == |op.attempts| {
        return Err(NotFound);
      }
      if op.attempts[index].dispatch == NotDispatched {
        return Err(DispatchOutcomeUnknown);
      }
      if effect.UnrecognizedEffect? {
        return Err(InvalidRequest);
      }
      var a := Observed(op.attempts[index], effect, attribution, evidence, now);
      op := op.(attempts := op.attempts[index := a], updatedAt := now);
      if a.effect == EffectUnknown {
        op := op.(status := Unknown, lastError := "DISPATCH_OUTCOME_UNKNOWN");
      }
      if a.effect == OtherObserved {
        op := op.(status := NeedsIntervention, lastError := "EXTERNAL_INTERVENTION");
      }
      steps := UpdateStep(steps, a, operationID);
      operations := SaveOperation(operations, op).value;
      return Ok(());
    }

    method MarkUnknown(operationID: ID, now: Time) returns (r: Result<()>)
      requires Consistent(State())
      modifies this
      ensures match J.MarkUnknown(old(State()), operationID, now)
              case Ok(next) => State() == next && r.Ok?
              case Err(code) => State() == old(State()) && r == Err(code)
      ensures StepGood(old(State()), State())
    {
      hide Consistent, StepGood, StepsOK, AttemptsHaveRows, DistinctSteps;
      CallGood(State(), MarkUnresolved(operationID, now));
      if operationID in operations { OperationFacts(State(), operationID); }
      if operationID !in operations {
        return Err(NotFound);
      }
      var op := operations[operationID].payload;
      if !CanTransition(op.status, Unknown) {
        return Err(ScopeDenied);
      }
      operations := SaveOperation(operations, op.(status := Unknown, released := false,
                                                  lastError := "DISPATCH_OUTCOME_UNKNOWN", updatedAt := now)).value;
      return Ok(());
    }

    method TransitionOperation(operationID: ID, to: OperationStatus, verification: VerificationStatus,
                               maintenanceReleased: bool, now: Time) returns (r: Result<()>)
      requires Consistent(State())
      modifies this
      ensures match J.TransitionOperation(old(State()), operationID, to, verification, maintenanceReleased, now)
              case Ok(next) => State() == next && r.Ok?
              case Err(code) => State() == old(State()) && r == Err(code)
      ensures StepGood(old(State()), State())
    {
      hide Consistent, StepGood, StepsOK, AttemptsHaveRows, DistinctSteps;
      CallGood(State(), Transition(operationID, to, verification, maintenanceReleased, now));
      if operationID in operations { OperationFacts(State(), operationID); }
      if operationID !in operations {
        return Err(NotFound);
      }
      var op := operations[operationID].payload;
      if !CanTransition(op.status, to) {
        return Err(ScopeDenied);
      }
      if to == Succeeded && !VerificationAllowsSuccess(verification, maintenanceReleased) {
        return Err(VerificationInconclusive);
      }
      op := op.(status := to, verification := verification, updatedAt := now);
      if Releases(to) {
        op := op.(released := true);
      }
      operations := SaveOperation(operations, op).value;
      return Ok(());
    }

    method ReserveBackup(b: BackupRecord, now: Time) returns (r: Result<()>)
      requires Consistent(State())
      modifies this
      ensures match J.ReserveBackup(old(State()), b, now)
              case Ok(next) => State() == next && r.Ok?
              case Err(code) => State() == old(State()) && r == Err(code)
      ensures StepGood(old(State()), State())
    {
      hide Consistent, StepGood, StepsOK, AttemptsHaveRows, DistinctSteps, ValidateReady, MatchesIntent;
      CallGood(State(), Reserve(b, now));
      if b.operationID in operations { OperationFacts(State(), b.operationID); }
      if b.operationID !in operations {
        return Err(NotFound);
      }
      var op := operations[b.operationID].payload;
      if op.released || op.status != Executing || |op.attempts| != 6 {
        return Err(ScopeDenied);
      }
      var step := op.attempts[5];
      if step.stepID != b.stepID || step.kind != S05CreateBackup || step.dispatch != DispatchPossible {
        return Err(DispatchOutcomeUnknown);
      }
      var i := intents[op.intentID].payload.intent;
      var ready := ValidateReady(digests, b.ready, b.ready.offline.enrollment, i, op, now);
      if ready.Err? {
        return Err(ready.code);
      }
      if !MatchesIntent(b, i, digests.recipe) || b.status != BackupReserved || !b.offlineMode ||
         b.schema != BACKUP_SCHEMA || b.completedAt != ZERO_TIME || b.digestVerifiedAt != ZERO_TIME ||
         b.archiveSHA256 != "" || b.archiveSize != 0 || !FreshEvidence(b.createdAt, now) {
        return Err(InvalidRequest);
      }
      if b.backupID in backups {
        return Err(JournalUnavailable);
      }
      if k :| k in backups && backups[k].operationID == b.operationID {
        return Err(JournalUnavailable);
      }
      backups := backups[b.backupID := BackupRow(b.operationID, b.status, b)];
      return Ok(());
    }

    method TransitionBackup(id: ID, to: BackupStatus) returns (r: Result<()>)
      requires Consistent(State())
      modifies this
      ensures match J.TransitionBackup(old(State()), id, to)
              case Ok(next) => State() == next && r.Ok?
              case Err(code) => State() == old(State()) && r == Err(code)
      ensures StepGood(old(State()), State())
    {
      hide Consistent, StepGood;
      CallGood(State(), MoveBackup(id, to));
      if id !in backups {
        return Err(JournalUnavailable);
      }
      var record := backups[id].payload;
      if !CanTransitionBackup(record.status, to) {
        return Err(InvalidRequest);
      }
      backups := backups[id := backups[id].(status := to, payload := record.(status := to))];
      return Ok(());
    }

    method CompleteBackup(id: ID, digest: string, size: int, ready: ReadyEvidence, now: Time) returns (r: Result<()>)
      requires Consistent(State())
      modifies this
      ensures match J.CompleteBackup(old(State()), id, digest, size, ready, now)
              case Ok(next) => State() == next && r.Ok?
              case Err(code) => State() == old(State()) && r == Err(code)
      ensures StepGood(old(State()), State())
    {
      hide Consistent, StepGood, StepsOK, AttemptsHaveRows, DistinctSteps, ValidateReady, IsHexDigest;
      CallGood(State(), Complete(id, digest, size, ready, now));
      if id in backups {
        BackupFacts(State(), id);
        OperationFacts(State(), backups[id].operationID);
      }
      if !IsHexDigest(digest) || size <= 0 {
        return Err(BackupNotReady);
      }
      if id !in backups {
        return Err(JournalUnavailable);
      }
      var record := backups[id].payload;
      if record.status != BackupVerifying {
        return Err(ScopeDenied);
      }
      var op := operations[record.operationID].payload;
      if op.status != Executing || op.released || |op.attempts| != 6 {
        return Err(TargetBlockedUnknown);
      }
      var a := op.attempts[5];
      if a.stepID != record.stepID || a.dispatch != DispatchPossible || a.effect != EffectUnknown {
        return Err(DispatchOutcomeUnknown);
      }
      var valid := ValidateReady(digests, ready, ready.offline.enrollment, intents[op.intentID].payload.intent, op,
                                 now);
      if valid.Err? {
        return Err(valid.code);
      }
      record := record.(ready := ready, status := BackupValid, archiveSHA256 := digest, archiveSize := size,
                        digestVerifiedAt := now, completedAt := now);
      var completed := ValidateCompleted(record);
      if completed.Err? {
        return Err(completed.code);
      }
      backups := backups[id := backups[id].(status := BackupValid, payload := record)];
      a := a.(dispatch := Acknowledged, effect := ExpectedObserved, attribution := Correlated,
              evidence := [Text("backup:" + id), Text("sha256:" + digest)], updatedAt := now);
      if a.stepID in steps {
        steps := steps[a.stepID := steps[a.stepID].(payload := a)];
      }
      operations := SaveOperation(operations, op.(attempts := op.attempts[5 := a], updatedAt := now)).value;
      return Ok(());
    }
  }

  lemma OnlyTwoOwnerErrors(operations: Operations, enrollmentID: ID)
    ensures ActiveOwner(operations, enrollmentID) in {Ok(()), Err(TargetBusy), Err(TargetBlockedUnknown)}
  {
  }
}
