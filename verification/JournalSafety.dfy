/**
 What every sequence of store calls keeps, whoever makes the calls.

 `Consistent` is the invariant of one journal: columns and step rows equal the
 payloads they summarise, one unreleased operation per enrollment, one decision
 per intent, and a coherent timeline in every valid backup. `Evolves` is the
 transitive relation between a journal and any later one: frozen intents, one-way
 authority, released ownership, the trap of unresolved operations, final backups.
 */
module JournalSafety {
  import opened Domain
  import opened Journal

  // ---- One journal ----------------------------------------------------------

  ghost predicate IntentsOK(intents: Intents) {
    && (forall k :: k in intents ==>
                      intents[k] == RowOfIntent(intents[k].payload) && intents[k].payload.intent.intentID == k)
    && (forall k, m | k in intents && m in intents && SharesClientKey(intents[m], intents[k]) :: k == m)
  }

  ghost predicate SharesClientKey(row: IntentRow, other: IntentRow) {
    SameClientKey(row, other.principalID, other.enrollmentID, other.clientRequestID)
  }

  ghost predicate OperationsOK(operations: Operations, intents: Intents) {
    && (forall k :: k in operations ==> OperationOK(operations[k], k, intents))
    && (forall k, m | k in operations && m in operations && operations[k].intentID == operations[m].intentID ::
          k == m)
  }

  ghost predicate OperationOK(row: OperationRow, k: ID, intents: Intents) {
    && row == RowOfOperation(row.payload) && row.payload.operationID == k
    && row.intentID in intents
    && row.enrollmentID == intents[row.intentID].payload.intent.enrollmentID
    && row.payload.intentDigest == intents[row.intentID].payload.intent.intentDigest
  }

  ghost predicate SingleWriter(operations: Operations) {
    forall k, m | k in operations && m in operations && !operations[k].released && !operations[m].released &&
                  operations[k].enrollmentID == operations[m].enrollmentID :: k == m
  }

  predicate Settled(status: OperationStatus) {
    Releases(status) || status == Unknown || status == NeedsIntervention
  }

  ghost predicate ReleasedIsSettled(operations: Operations) {
    forall k :: k in operations && operations[k].released ==> Settled(operations[k].status)
  }

  ghost predicate DistinctSteps(attempts: seq<StepAttempt>) {
    forall m, n :: 0 <= m < n < |attempts| ==> attempts[m].stepID != attempts[n].stepID
  }

  ghost predicate StepsOK(steps: Steps, operations: Operations) {
    && (forall s :: s in steps ==>
                      steps[s].operationID in operations &&
                      FindStep(operations[steps[s].operationID].payload.attempts, s)
                        < |operations[steps[s].operationID].payload.attempts|)
    && (forall k :: k in operations ==> AttemptsHaveRows(steps, k, operations[k].payload.attempts))
    && (forall k :: k in operations ==> DistinctSteps(operations[k].payload.attempts))
  }

  ghost predicate AttemptsHaveRows(steps: Steps, k: ID, attempts: seq<StepAttempt>) {
    forall n :: 0 <= n < |attempts| ==>
                  attempts[n].stepID in steps &&
                  steps[attempts[n].stepID] == StepRow(k, attempts[n].attemptNo, attempts[n])
  }

  ghost predicate ApprovalsOK(approvals: Approvals, intents: Intents, operations: Operations) {
    && (forall i :: i in approvals ==>
                      i in intents && ApprovalOK(approvals[i], i, intents[i]))
    && (forall i :: i in approvals && approvals[i].payload.decision == Approved ==> HasOperationFor(operations, i))
    && (forall k :: k in operations ==>
                      operations[k].intentID in approvals &&
                      approvals[operations[k].intentID].payload.decision == Approved)
  }

  ghost predicate ApprovalOK(row: ApprovalRow, i: ID, intent: IntentRow) {
    && row == ApprovalRow(row.payload.approvalID, row.payload.intentDigest, row.payload)
    && row.payload.intentID == i && row.payload.intentDigest == intent.payload.intent.intentDigest
    && (row.payload.decision == Approved ==>
          && row.payload.decidedAt < intent.payload.intent.approvalDeadline
          && row.payload.decidedAt < intent.payload.intent.startBefore)
  }

  ghost predicate BackupsOK(backups: Backups, operations: Operations) {
    && (forall b :: b in backups ==> BackupOK(backups[b], b) && backups[b].operationID in operations)
    && (forall b, c | b in backups && c in backups && backups[b].operationID == backups[c].operationID :: b == c)
  }

  ghost predicate BackupOK(row: BackupRow, b: ID) {
    && row == BackupRow(row.payload.operationID, row.payload.status, row.payload)
    && row.payload.backupID == b
    && (row.status == BackupValid ==> ValidBackup(row.payload))
  }

  ghost predicate ValidBackup(r: BackupRecord) {
    && ValidateCompleted(r).Ok? && IsHexDigest(r.archiveSHA256)
    && Timeline(r.ready, r.completedAt)
    && r.ready.stop.operationID == r.operationID
  }

  ghost predicate Consistent(j: Journal) {
    && IntentsOK(j.intents)
    && OperationsOK(j.operations, j.intents)
    && SingleWriter(j.operations)
    && ReleasedIsSettled(j.operations)
    && StepsOK(j.steps, j.operations)
    && ApprovalsOK(j.approvals, j.intents, j.operations)
    && BackupsOK(j.backups, j.operations)
  }

  // ---- Two journals -----------------------------------------------------------

  predicate Closed(status: IntentStatus) {
    status in {IntentRejected, IntentExpired, IntentRevoked, IntentCancelled}
  }

  ghost predicate IntentEvolves(row: IntentRow, next: IntentRow) {
    && next.payload.intent == row.payload.intent && next.payload.proposalDigest == row.payload.proposalDigest
    && (Closed(row.status) ==> next == row)
    && (next.status == IntentAwaitingApproval ==> row.status == IntentAwaitingApproval)
  }

  /** Neither a new attempt nor a new permission to dispatch. */
  ghost predicate NoNewDispatch(op: Operation, next: Operation) {
    && |next.attempts| == |op.attempts|
    && forall n :: 0 <= n < |op.attempts| && op.attempts[n].dispatch == NotDispatched
                   ==> next.attempts[n].dispatch == NotDispatched
  }

  predicate Trapped(op: Operation) {
    !op.released && (op.status == Unknown || op.status == NeedsIntervention)
  }

  ghost predicate AttemptEvolves(a: StepAttempt, b: StepAttempt) {
    && b.stepID == a.stepID && b.kind == a.kind && b.attemptNo == a.attemptNo && b.preparedAt == a.preparedAt
    && (a.dispatch != NotDispatched ==> b.dispatch != NotDispatched)
    && (a.dispatch == Acknowledged ==> b.dispatch == Acknowledged)
  }

  ghost predicate SameIdentity(op: Operation, next: Operation) {
    && next.operationID == op.operationID && next.intentID == op.intentID
    && next.intentDigest == op.intentDigest && next.enrollmentID == op.enrollmentID
    && next.epoch == op.epoch && next.createdAt == op.createdAt
  }

  ghost predicate OperationEvolves(op: Operation, next: Operation) {
    && SameIdentity(op, next)
    && |op.attempts| <= |next.attempts|
    && (forall n :: 0 <= n < |op.attempts| ==> AttemptEvolves(op.attempts[n], next.attempts[n]))
    && (op.released ==> next.released)
    && (op.released || Trapped(op) ==> NoNewDispatch(op, next))
    && (Trapped(op) ==> Trapped(next))
    && (op.status != Queued ==> next.status != Queued)
    && (op.status != Queued && op.status != Preparing ==> next.status != Preparing)
  }

  predicate FinalBackup(status: BackupStatus) {
    status in {BackupValid, BackupFailed, BackupUnknown, BackupOrphaned}
  }

  ghost predicate BackupEvolves(row: BackupRow, next: BackupRow) {
    && next.operationID == row.operationID && next.payload.stepID == row.payload.stepID
    && (FinalBackup(row.status) ==> next == row)
  }

  ghost predicate IntentsEvolve(intents: Intents, next: Intents) {
    forall i :: i in intents ==> i in next && IntentEvolves(intents[i], next[i])
  }

  ghost predicate ApprovalsEvolve(approvals: Approvals, next: Approvals) {
    forall i :: i in approvals ==> i in next && next[i] == approvals[i]
  }

  ghost predicate OperationsEvolve(operations: Operations, next: Operations) {
    forall k :: k in operations ==> k in next && OperationEvolves(operations[k].payload, next[k].payload)
  }

  ghost predicate BackupsEvolve(backups: Backups, next: Backups) {
    forall b :: b in backups ==> b in next && BackupEvolves(backups[b], next[b])
  }

  ghost predicate Revoked(intents: Intents, i: ID) {
    i in intents && intents[i].status == IntentRevoked
  }

  /** After a revocation no attempt is prepared and none becomes possibly dispatched. */
  ghost predicate RevocationHolds(intents: Intents, operations: Operations, next: Operations) {
    forall k :: k in operations && Revoked(intents, operations[k].intentID) ==>
                  k in next && NoNewDispatch(operations[k].payload, next[k].payload)
  }

  /** An unresolved owner keeps every other operation off its enrollment... */
  ghost predicate TrapExcludes(operations: Operations, next: Operations) {
    forall k, m | k in operations && Trapped(operations[k].payload) && m in next && m !in operations ::
      next[m].enrollmentID != operations[k].enrollmentID
  }

  /** ...and gets no backup reserved or completed. */
  ghost predicate TrapStopsBackups(operations: Operations, backups: Backups, next: Backups) {
    forall b | b in next && next[b].operationID in operations && Trapped(operations[next[b].operationID].payload) ::
      b in backups && (next[b].status == BackupValid ==> backups[b].status == BackupValid)
  }

  ghost predicate Evolves(j: Journal, j': Journal) {
    && j'.digests == j.digests
    && IntentsEvolve(j.intents, j'.intents)
    && ApprovalsEvolve(j.approvals, j'.approvals)
    && OperationsEvolve(j.operations, j'.operations)
    && BackupsEvolve(j.backups, j'.backups)
    && RevocationHolds(j.intents, j.operations, j'.operations)
    && TrapExcludes(j.operations, j'.operations)
    && TrapStopsBackups(j.operations, j.backups, j'.backups)
  }

  lemma EvolvesReflexive(j: Journal)
    ensures Evolves(j, j)
  {
  }

  lemma OperationEvolvesTransitive(a: Operation, b: Operation, c: Operation)
    requires OperationEvolves(a, b) && OperationEvolves(b, c)
    ensures OperationEvolves(a, c)
  {
    forall n | 0 <= n < |a.attempts| ensures AttemptEvolves(a.attempts[n], c.attempts[n]) {
      assert AttemptEvolves(a.attempts[n], b.attempts[n]) && AttemptEvolves(b.attempts[n], c.attempts[n]);
    }
  }

  lemma OperationsEvolveTransitive(a: Operations, b: Operations, c: Operations)
    requires OperationsEvolve(a, b) && OperationsEvolve(b, c)
    ensures OperationsEvolve(a, c)
  {
    forall k | k in a ensures k in c && OperationEvolves(a[k].payload, c[k].payload) {
      OperationEvolvesTransitive(a[k].payload, b[k].payload, c[k].payload);
    }
  }

  lemma RevocationHoldsTransitive(a: Journal, b: Journal, c: Operations)
    requires OperationsOK(a.operations, a.intents) && OperationsOK(b.operations, b.intents)
    requires IntentsEvolve(a.intents, b.intents) && OperationsEvolve(a.operations, b.operations)
    requires RevocationHolds(a.intents, a.operations, b.operations)
    requires RevocationHolds(b.intents, b.operations, c)
    ensures RevocationHolds(a.intents, a.operations, c)
  {
    forall k | k in a.operations && Revoked(a.intents, a.operations[k].intentID)
      ensures k in c && NoNewDispatch(a.operations[k].payload, c[k].payload)
    {
      assert IntentEvolves(a.intents[a.operations[k].intentID], b.intents[a.operations[k].intentID]);
      assert OperationEvolves(a.operations[k].payload, b.operations[k].payload);
      assert OperationOK(b.operations[k], k, b.intents) && OperationOK(a.operations[k], k, a.intents);
      assert Revoked(b.intents, b.operations[k].intentID);
    }
  }

  lemma TrapExcludesTransitive(a: Journal, b: Journal, c: Journal)
    requires OperationsOK(a.operations, a.intents) && OperationsOK(b.operations, b.intents)
    requires OperationsOK(c.operations, c.intents)
    requires OperationsEvolve(a.operations, b.operations) && OperationsEvolve(b.operations, c.operations)
    requires TrapExcludes(a.operations, b.operations) && TrapExcludes(b.operations, c.operations)
    ensures TrapExcludes(a.operations, c.operations)
  {
    forall k, m | k in a.operations && Trapped(a.operations[k].payload) && m in c.operations && m !in a.operations
      ensures c.operations[m].enrollmentID != a.operations[k].enrollmentID
    {
      assert OperationEvolves(a.operations[k].payload, b.operations[k].payload);
      assert OperationOK(a.operations[k], k, a.intents) && OperationOK(b.operations[k], k, b.intents);
      if m in b.operations {
        assert OperationEvolves(b.operations[m].payload, c.operations[m].payload);
        assert OperationOK(b.operations[m], m, b.intents) && OperationOK(c.operations[m], m, c.intents);
      }
    }
  }

  lemma TrapStopsBackupsTransitive(a: Journal, b: Journal, next: Backups)
    requires OperationsEvolve(a.operations, b.operations) && BackupsEvolve(b.backups, next)
    requires TrapStopsBackups(a.operations, a.backups, b.backups)
    requires TrapStopsBackups(b.operations, b.backups, next)
    ensures TrapStopsBackups(a.operations, a.backups, next)
  {
    forall x | x in next && next[x].operationID in a.operations && Trapped(a.operations[next[x].operationID].payload)
      ensures x in a.backups && (next[x].status == BackupValid ==> a.backups[x].status == BackupValid)
    {
      var k := next[x].operationID;
      assert OperationEvolves(a.operations[k].payload, b.operations[k].payload);
      assert x in b.backups && BackupEvolves(b.backups[x], next[x]);
    }
  }

  lemma TablesEvolveTransitive(a: Journal, b: Journal, c: Journal)
    requires IntentsEvolve(a.intents, b.intents) && IntentsEvolve(b.intents, c.intents)
    requires ApprovalsEvolve(a.approvals, b.approvals) && ApprovalsEvolve(b.approvals, c.approvals)
    requires BackupsEvolve(a.backups, b.backups) && BackupsEvolve(b.backups, c.backups)
    ensures IntentsEvolve(a.intents, c.intents) && ApprovalsEvolve(a.approvals, c.approvals)
    ensures BackupsEvolve(a.backups, c.backups)
  {
    forall i | i in a.intents ensures i in c.intents && IntentEvolves(a.intents[i], c.intents[i]) {
      assert IntentEvolves(a.intents[i], b.intents[i]) && IntentEvolves(b.intents[i], c.intents[i]);
    }
    forall x | x in a.backups ensures x in c.backups && BackupEvolves(a.backups[x], c.backups[x]) {
      assert BackupEvolves(a.backups[x], b.backups[x]) && BackupEvolves(b.backups[x], c.backups[x]);
    }
  }

  lemma EvolvesTransitive(a: Journal, b: Journal, c: Journal)
    requires OperationsOK(a.operations, a.intents) && OperationsOK(b.operations, b.intents)
    requires OperationsOK(c.operations, c.intents)
    requires Evolves(a, b) && Evolves(b, c)
    ensures Evolves(a, c)
  {
    TablesEvolveTransitive(a, b, c);
    OperationsEvolveTransitive(a.operations, b.operations, c.operations);
    RevocationHoldsTransitive(a, b, c.operations);
    TrapExcludesTransitive(a, b, c);
    TrapStopsBackupsTransitive(a, b, c.backups);
  }

  // ---- Every call keeps both ------------------------------------------------------

  ghost predicate StepGood(j: Journal, j': Journal) {
    Consistent(j') && Evolves(j, j')
  }

  /** The side conditions under which rewriting one operation is safe. */
  ghost predicate SafeRewrite(j: Journal, op: Operation) {
    && op.operationID in j.operations
    && OperationEvolves(j.operations[op.operationID].payload, op)
    && (op.released ==> Settled(op.status))
    && (Revoked(j.intents, op.intentID) ==> NoNewDispatch(j.operations[op.operationID].payload, op))
  }

  function Saved(operations: Operations, op: Operation): Operations
    requires op.operationID in operations
  {
    SaveOperation(operations, op).value
  }

  lemma SavedOperationRows(operations: Operations, intents: Intents, op: Operation)
    requires OperationsOK(operations, intents) && op.operationID in operations
    requires SameIdentity(operations[op.operationID].payload, op)
    ensures OperationsOK(Saved(operations, op), intents)
  {
    assert OperationOK(operations[op.operationID], op.operationID, intents);
    assert OperationOK(Saved(operations, op)[op.operationID], op.operationID, intents);
  }

  lemma SavedOperationOwnership(operations: Operations, op: Operation)
    requires SingleWriter(operations) && ReleasedIsSettled(operations) && op.operationID in operations
    requires operations[op.operationID].released ==> op.released
    requires op.released ==> Settled(op.status)
    ensures SingleWriter(Saved(operations, op)) && ReleasedIsSettled(Saved(operations, op))
  {
  }

  lemma SavedOperationReferences(j: Journal, op: Operation)
    requires ApprovalsOK(j.approvals, j.intents, j.operations) && BackupsOK(j.backups, j.operations)
    requires op.operationID in j.operations
    ensures ApprovalsOK(j.approvals, j.intents, Saved(j.operations, op))
    ensures BackupsOK(j.backups, Saved(j.operations, op))
  {
    var next := Saved(j.operations, op);
    forall i | i in j.approvals && j.approvals[i].payload.decision == Approved ensures HasOperationFor(next, i) {
      var k := OperationFor(j.operations, i);
      assert k in next && next[k].intentID == i;
    }
  }

  lemma SavedOperationEvolves(j: Journal, op: Operation)
    requires OperationsOK(j.operations, j.intents) && SafeRewrite(j, op)
    ensures OperationsEvolve(j.operations, Saved(j.operations, op))
    ensures RevocationHolds(j.intents, j.operations, Saved(j.operations, op))
    ensures TrapExcludes(j.operations, Saved(j.operations, op))
  {
    var was := j.operations[op.operationID].payload;
    assert OperationOK(j.operations[op.operationID], op.operationID, j.intents);
    hide OperationsOK, OperationEvolves;
    forall k | k in j.operations ensures OperationEvolves(j.operations[k].payload, Saved(j.operations, op)[k].payload) {
      if k != op.operationID { OperationEvolvesReflexive(j.operations[k].payload); }
    }
    assert was.intentID == op.intentID by { IdentityOf(was, op); }
  }

  lemma OperationEvolvesReflexive(op: Operation)
    ensures OperationEvolves(op, op)
  {
  }

  lemma IdentityOf(op: Operation, next: Operation)
    requires OperationEvolves(op, next)
    ensures SameIdentity(op, next) && (op.released ==> next.released)
  {
  }

  lemma SavedOperation(j: Journal, op: Operation, steps: Steps)
    requires Consistent(j) && SafeRewrite(j, op)
    requires StepsOK(steps, Saved(j.operations, op))
    ensures StepGood(j, j.(operations := Saved(j.operations, op), steps := steps))
  {
    hide IntentsOK, OperationsOK, SingleWriter, ReleasedIsSettled, StepsOK, ApprovalsOK, BackupsOK, IntentsEvolve,
      ApprovalsEvolve, OperationsEvolve, BackupsEvolve, RevocationHolds, TrapExcludes, TrapStopsBackups,
      OperationEvolves, AttemptsHaveRows, DistinctSteps;
    OperationFacts(j, op.operationID);
    IdentityOf(j.operations[op.operationID].payload, op);
    SavedOperationRows(j.operations, j.intents, op);
    SavedOperationOwnership(j.operations, op);
    SavedOperationReferences(j, op);
    SavedOperationEvolves(j, op);
    EvolvesReflexive(j);
  }

  lemma FindStepFinds(attempts: seq<StepAttempt>, n: nat)
    requires n < |attempts| && DistinctSteps(attempts)
    ensures FindStep(attempts, attempts[n].stepID) == n
  {
  }

  lemma StepsUnchanged(steps: Steps, operations: Operations, op: Operation)
    requires StepsOK(steps, operations) && op.operationID in operations
    requires op.attempts == operations[op.operationID].payload.attempts
    ensures StepsOK(steps, Saved(operations, op))
  {
  }

  /** One attempt of an operation was rewritten, or one with a new step ID appended. */
  ghost predicate StoredAttempt(steps: Steps, was: seq<StepAttempt>, next: seq<StepAttempt>, n: nat, a: StepAttempt) {
    || (n < |was| && a.stepID == was[n].stepID && next == was[n := a])
    || (n == |was| && a.stepID !in steps && next == was + [a])
  }

  lemma StoredAttemptIsDistinct(steps: Steps, k: ID, was: seq<StepAttempt>, next: seq<StepAttempt>, n: nat,
                                a: StepAttempt)
    requires AttemptsHaveRows(steps, k, was) && DistinctSteps(was) && StoredAttempt(steps, was, next, n, a)
    ensures DistinctSteps(next)
    ensures AttemptsHaveRows(steps[a.stepID := StepRow(k, a.attemptNo, a)], k, next)
  {
  }

  lemma StoredAttemptIsFound(steps: Steps, was: seq<StepAttempt>, next: seq<StepAttempt>, n: nat, a: StepAttempt, s: ID)
    requires StoredAttempt(steps, was, next, n, a)
    requires s == a.stepID || FindStep(was, s) < |was|
    ensures FindStep(next, s) < |next|
  {
    if s == a.stepID {
      assert next[n].stepID == s;
    } else {
      assert next[FindStep(was, s)].stepID == s;
    }
  }

  lemma StepStored(steps: Steps, operations: Operations, op: Operation, n: nat, a: StepAttempt)
    requires StepsOK(steps, operations) && op.operationID in operations
    requires StoredAttempt(steps, operations[op.operationID].payload.attempts, op.attempts, n, a)
    ensures StepsOK(steps[a.stepID := StepRow(op.operationID, a.attemptNo, a)], Saved(operations, op))
  {
    hide DistinctSteps, FindStep, StoredAttempt;
    var was := operations[op.operationID].payload.attempts;
    var stored := steps[a.stepID := StepRow(op.operationID, a.attemptNo, a)];
    var next := Saved(operations, op);
    StoredAttemptIsDistinct(steps, op.operationID, was, op.attempts, n, a);
    forall k | k in next ensures AttemptsHaveRows(stored, k, next[k].payload.attempts) {
      if k != op.operationID { OtherRowsKept(steps, operations, op, n, a, k); }
    }
    forall s | s in stored
      ensures stored[s].operationID in next &&
              FindStep(next[stored[s].operationID].payload.attempts, s) < |next[stored[s].operationID].payload.attempts|
    {
      if stored[s].operationID == op.operationID { StoredAttemptIsFound(steps, was, op.attempts, n, a, s); }
    }
  }

  lemma OtherRowsKept(steps: Steps, operations: Operations, op: Operation, n: nat, a: StepAttempt, k: ID)
    requires k in operations && op.operationID in operations && k != op.operationID
    requires AttemptsHaveRows(steps, k, operations[k].payload.attempts)
    requires AttemptsHaveRows(steps, op.operationID, operations[op.operationID].payload.attempts)
    requires StoredAttempt(steps, operations[op.operationID].payload.attempts, op.attempts, n, a)
    ensures AttemptsHaveRows(steps[a.stepID := StepRow(op.operationID, a.attemptNo, a)], k,
                             operations[k].payload.attempts)
  {
  }

  lemma OperationFacts(j: Journal, k: ID)
    requires Consistent(j) && k in j.operations
    ensures OperationOK(j.operations[k], k, j.intents)
    ensures j.intents[j.operations[k].intentID] == RowOfIntent(j.intents[j.operations[k].intentID].payload)
    ensures j.intents[j.operations[k].intentID].payload.intent.intentID == j.operations[k].intentID
    ensures j.operations[k].released ==> Settled(j.operations[k].status)
    ensures AttemptsHaveRows(j.steps, k, j.operations[k].payload.attempts)
    ensures DistinctSteps(j.operations[k].payload.attempts)
    ensures StepsOK(j.steps, j.operations)
  {
  }

  lemma PrepareGood(j: Journal, operationID: ID, kind: StepKind, now: Time, stepID: ID)
    requires Consistent(j) && PrepareStep(j, operationID, kind, now, stepID).Ok?
    ensures StepGood(j, PrepareStep(j, operationID, kind, now, stepID).value.0)
  {
    hide Consistent, StepGood, StepsOK, AttemptsHaveRows, DistinctSteps;
    OperationFacts(j, operationID);
    var op := j.operations[operationID].payload;
    var a := PrepareStep(j, operationID, kind, now, stepID).value.1;
    var next := op.(attempts := op.attempts + [a], updatedAt := now);
    StepStored(j.steps, j.operations, next, |op.attempts|, a);
    SavedOperation(j, next, j.steps[stepID := StepRow(op.operationID, a.attemptNo, a)]);
  }

  /** MarkDispatchPossible and RecordStepObservation, through their common update. */
  lemma SaveAttemptGood(j: Journal, operationID: ID, n: nat, a: StepAttempt, status: OperationStatus,
                        lastError: string, now: Time)
    requires Consistent(j) && operationID in j.operations
    requires n < |j.operations[operationID].payload.attempts|
    requires var op := j.operations[operationID].payload;
             SafeRewrite(j, op.(attempts := op.attempts[n := a], status := status, lastError := lastError,
                                updatedAt := now))
    ensures SaveAttempt(j, operationID, j.operations[operationID].payload, n, a, status, lastError, now).Ok?
    ensures StepGood(j,
                     SaveAttempt(j, operationID, j.operations[operationID].payload, n, a, status, lastError, now).value)
  {
    hide Consistent, StepGood, StepsOK, AttemptsHaveRows, DistinctSteps;
    OperationFacts(j, operationID);
    var op := j.operations[operationID].payload;
    var next := op.(attempts := op.attempts[n := a], status := status, lastError := lastError, updatedAt := now);
    assert AttemptEvolves(op.attempts[n], next.attempts[n]);
    assert UpdateStep(j.steps, a, operationID) == j.steps[a.stepID := StepRow(operationID, a.attemptNo, a)];
    StepStored(j.steps, j.operations, next, n, a);
    SavedOperation(j, next, j.steps[a.stepID := StepRow(operationID, a.attemptNo, a)]);
  }

  lemma MarkPossibleGood(j: Journal, operationID: ID, stepID: ID, now: Time)
    requires Consistent(j) && MarkDispatchPossible(j, operationID, stepID, now).Ok?
    ensures StepGood(j, MarkDispatchPossible(j, operationID, stepID, now).value)
  {
    hide Consistent, StepGood, StepsOK, AttemptsHaveRows, DistinctSteps;
    OperationFacts(j, operationID);
    var op := j.operations[operationID].payload;
    var n := FindStep(op.attempts, stepID);
    var a := op.attempts[n].(dispatch := DispatchPossible, effect := EffectUnknown,
                             attribution := Unattributed, updatedAt := now);
    SaveAttemptGood(j, operationID, n, a, op.status, op.lastError, now);
  }

  lemma RecordGood(j: Journal, operationID: ID, stepID: ID, effect: EffectState, attribution: Attribution,
                   evidence: seq<Evidence>, now: Time)
    requires Consistent(j)
    requires RecordStepObservation(j, operationID, stepID, effect, attribution, evidence, now).Ok?
    ensures StepGood(j, RecordStepObservation(j, operationID, stepID, effect, attribution, evidence, now).value)
  {
    hide Consistent, StepGood, StepsOK, AttemptsHaveRows, DistinctSteps;
    OperationFacts(j, operationID);
    var op := j.operations[operationID].payload;
    var n := FindStep(op.attempts, stepID);
    var a := Observed(op.attempts[n], effect, attribution, evidence, now);
    assert AttemptEvolves(op.attempts[n], a);
    SaveAttemptGood(j, operationID, n, a, StatusAfter(op.status, effect), ErrorAfter(op.lastError, effect), now);
  }

  lemma MarkUnresolvedGood(j: Journal, operationID: ID, now: Time)
    requires Consistent(j) && MarkUnknown(j, operationID, now).Ok?
    ensures StepGood(j, MarkUnknown(j, operationID, now).value)
  {
    hide Consistent, StepGood, StepsOK, AttemptsHaveRows, DistinctSteps;
    OperationFacts(j, operationID);
    var op := j.operations[operationID].payload;
    // A released operation is settled, and no settled status may move to UNKNOWN here.
    assert !op.released;
    var next := op.(status := Unknown, released := false, lastError := "DISPATCH_OUTCOME_UNKNOWN", updatedAt := now);
    StepsUnchanged(j.steps, j.operations, next);
    SavedOperation(j, next, j.steps);
  }

  lemma TransitionGood(j: Journal, operationID: ID, to: OperationStatus, verification: VerificationStatus,
                       maintenanceReleased: bool, now: Time)
    requires Consistent(j)
    requires TransitionOperation(j, operationID, to, verification, maintenanceReleased, now).Ok?
    ensures StepGood(j, TransitionOperation(j, operationID, to, verification, maintenanceReleased, now).value)
  {
    hide Consistent, StepGood, StepsOK, AttemptsHaveRows, DistinctSteps;
    OperationFacts(j, operationID);
    var op := j.operations[operationID].payload;
    assert !op.released && !Trapped(op);
    var next := op.(status := to, verification := verification, released := op.released || Releases(to),
                    updatedAt := now);
    StepsUnchanged(j.steps, j.operations, next);
    SavedOperation(j, next, j.steps);
  }

  lemma InsertedIntents(intents: Intents, record: IntentRecord)
    requires IntentsOK(intents) && record.intent.intentID !in intents
    requires !HasClientKey(intents, record.intent.principalID, record.intent.enrollmentID,
                           record.intent.clientRequestID)
    ensures IntentsOK(intents[record.intent.intentID := RowOfIntent(record)])
  {
    var i := record.intent;
    assert forall x :: x in intents ==> !SameClientKey(intents[x], i.principalID, i.enrollmentID, i.clientRequestID);
  }

  /** Later intents rows that still hold the same frozen intents support the same operations and approvals. */
  lemma IntentsExtended(j: Journal, next: Intents)
    requires OperationsOK(j.operations, j.intents) && ApprovalsOK(j.approvals, j.intents, j.operations)
    requires IntentsEvolve(j.intents, next)
    ensures OperationsOK(j.operations, next) && ApprovalsOK(j.approvals, next, j.operations)
  {
    forall k | k in j.operations ensures OperationOK(j.operations[k], k, next) {
      assert OperationOK(j.operations[k], k, j.intents);
      assert IntentEvolves(j.intents[j.operations[k].intentID], next[j.operations[k].intentID]);
    }
    forall i | i in j.approvals ensures i in next && ApprovalOK(j.approvals[i], i, next[i]) {
      assert ApprovalOK(j.approvals[i], i, j.intents[i]);
      assert IntentEvolves(j.intents[i], next[i]);
    }
  }

  lemma InsertGood(j: Journal, record: IntentRecord)
    requires Consistent(j) && InsertIntent(j, record).Ok?
    ensures StepGood(j, InsertIntent(j, record).value)
  {
    InsertedIntents(j.intents, record);
    IntentsExtended(j, InsertIntent(j, record).value.intents);
    EvolvesReflexive(j);
  }

  lemma UpdatedIntents(intents: Intents, record: IntentRecord)
    requires IntentsOK(intents) && record.intent.intentID in intents
    requires record.intent == intents[record.intent.intentID].payload.intent
    requires record.proposalDigest == intents[record.intent.intentID].payload.proposalDigest
    requires !Closed(intents[record.intent.intentID].status) && record.status != IntentAwaitingApproval
    ensures IntentsOK(UpdateIntent(intents, record))
    ensures IntentsEvolve(intents, UpdateIntent(intents, record))
  {
  }

  lemma ApprovedOperations(operations: Operations, intents: Intents, op: Operation)
    requires OperationsOK(operations, intents) && SingleWriter(operations) && ReleasedIsSettled(operations)
    requires op.operationID !in operations && !HasOperationFor(operations, op.intentID) && !op.released
    requires OperationOK(RowOfOperation(op), op.operationID, intents)
    requires ActiveOwner(operations, op.enrollmentID).Ok?
    ensures OperationsOK(operations[op.operationID := RowOfOperation(op)], intents)
    ensures SingleWriter(operations[op.operationID := RowOfOperation(op)])
    ensures ReleasedIsSettled(operations[op.operationID := RowOfOperation(op)])
    ensures TrapExcludes(operations, operations[op.operationID := RowOfOperation(op)])
  {
    assert forall k :: k in operations ==> !Owns(operations[k], op.enrollmentID);
    forall k | k in operations && Trapped(operations[k].payload) ensures operations[k].enrollmentID != op.enrollmentID {
      assert OperationOK(operations[k], k, intents);
    }
  }

  lemma ApprovedApprovals(approvals: Approvals, intents: Intents, operations: Operations, op: Operation,
                          row: ApprovalRow)
    requires ApprovalsOK(approvals, intents, operations)
    requires op.operationID !in operations && op.intentID !in approvals
    requires op.intentID in intents && ApprovalOK(row, op.intentID, intents[op.intentID])
    requires row.payload.decision == Approved
    ensures ApprovalsOK(approvals[op.intentID := row], intents, operations[op.operationID := RowOfOperation(op)])
    ensures ApprovalsEvolve(approvals, approvals[op.intentID := row])
  {
    var next := operations[op.operationID := RowOfOperation(op)];
    forall i | i in approvals && approvals[i].payload.decision == Approved ensures HasOperationFor(next, i) {
      var k := OperationFor(operations, i);
      assert k in next && next[k].intentID == i;
    }
    assert HasOperationFor(next, op.intentID) by { assert next[op.operationID].intentID == op.intentID; }
  }

  /** A new operation without attempts leaves steps, backups and the other operations as they are. */
  lemma AddedOperation(j: Journal, op: Operation)
    requires StepsOK(j.steps, j.operations) && BackupsOK(j.backups, j.operations)
    requires op.operationID !in j.operations && op.attempts == []
    ensures StepsOK(j.steps, j.operations[op.operationID := RowOfOperation(op)])
    ensures BackupsOK(j.backups, j.operations[op.operationID := RowOfOperation(op)])
    ensures OperationsEvolve(j.operations, j.operations[op.operationID := RowOfOperation(op)])
    ensures RevocationHolds(j.intents, j.operations, j.operations[op.operationID := RowOfOperation(op)])
  {
    var next := j.operations[op.operationID := RowOfOperation(op)];
    assert StepsOK(j.steps, next) by { AddedOperationSteps(j.steps, j.operations, op); }
    hide StepsOK, BackupOK;
  }

  lemma AddedOperationSteps(steps: Steps, operations: Operations, op: Operation)
    requires StepsOK(steps, operations) && op.operationID !in operations && op.attempts == []
    ensures StepsOK(steps, operations[op.operationID := RowOfOperation(op)])
  {
    hide FindStep, AttemptsHaveRows, DistinctSteps;
    assert forall s :: s in steps ==> steps[s].operationID != op.operationID;
    assert AttemptsHaveRows(steps, op.operationID, op.attempts) && DistinctSteps(op.attempts) by {
      NoAttempts(steps, op.operationID);
    }
  }

  lemma NoAttempts(steps: Steps, k: ID)
    ensures AttemptsHaveRows(steps, k, []) && DistinctSteps([])
  {
  }

  lemma IntentFacts(j: Journal, i: ID)
    requires Consistent(j) && i in j.intents
    ensures j.intents[i] == RowOfIntent(j.intents[i].payload) && j.intents[i].payload.intent.intentID == i
  {
  }

  lemma ApproveGood(j: Journal, intentID: ID, digest: string, approver: ID, osUID: int, now: Time,
                    approvalID: ID, operationID: ID)
    requires Consistent(j)
    requires ApproveIntent(j, intentID, digest, approver, osUID, now, approvalID, operationID).Ok?
    ensures StepGood(j, ApproveIntent(j, intentID, digest, approver, osUID, now, approvalID, operationID).value.0)
  {
    hide IntentsOK, OperationsOK, SingleWriter, ReleasedIsSettled, StepsOK, ApprovalsOK, BackupsOK, IntentsEvolve,
      ApprovalsEvolve, OperationsEvolve, BackupsEvolve, RevocationHolds, TrapExcludes, TrapStopsBackups, ActiveOwner;
    EvolvesReflexive(j);
    var (j', _, op) := ApproveIntent(j, intentID, digest, approver, osUID, now, approvalID, operationID).value;
    if intentID !in j.approvals {
      IntentFacts(j, intentID);
      ApprovedOperations(j.operations, j.intents, op);
      ApprovedApprovals(j.approvals, j.intents, j.operations, op, j'.approvals[intentID]);
      AddedOperation(j, op);
      UpdatedIntents(j.intents, j.intents[intentID].payload.(status := IntentConsumed, updatedAt := now));
      IntentsExtended(j.(approvals := j'.approvals, operations := j'.operations), j'.intents);
    }
  }

  lemma RejectedApprovals(approvals: Approvals, intents: Intents, operations: Operations, i: ID, row: ApprovalRow)
    requires ApprovalsOK(approvals, intents, operations)
    requires i !in approvals && i in intents && ApprovalOK(row, i, intents[i]) && row.payload.decision == Rejected
    ensures ApprovalsOK(approvals[i := row], intents, operations)
    ensures ApprovalsEvolve(approvals, approvals[i := row])
  {
  }

  lemma RejectGood(j: Journal, intentID: ID, digest: string, approver: ID, osUID: int, now: Time, approvalID: ID)
    requires Consistent(j)
    requires RejectIntent(j, intentID, digest, approver, osUID, now, approvalID).Ok?
    ensures StepGood(j, RejectIntent(j, intentID, digest, approver, osUID, now, approvalID).value.0)
  {
    hide IntentsOK, OperationsOK, SingleWriter, ReleasedIsSettled, StepsOK, ApprovalsOK, BackupsOK, IntentsEvolve,
      ApprovalsEvolve, OperationsEvolve, BackupsEvolve, RevocationHolds, TrapExcludes, TrapStopsBackups;
    var j' := RejectIntent(j, intentID, digest, approver, osUID, now, approvalID).value.0;
    EvolvesReflexive(j);
    if intentID !in j.approvals {
      IntentFacts(j, intentID);
      RejectedApprovals(j.approvals, j.intents, j.operations, intentID, j'.approvals[intentID]);
      UpdatedIntents(j.intents, j.intents[intentID].payload.(status := IntentRejected, updatedAt := now));
      IntentsExtended(j.(approvals := j'.approvals), j'.intents);
    }
  }

  lemma RevokeGood(j: Journal, intentID: ID, digest: string, now: Time)
    requires Consistent(j) && RevokeIntent(j, intentID, digest, now).Ok?
    ensures StepGood(j, RevokeIntent(j, intentID, digest, now).value)
  {
    hide IntentsOK, OperationsOK, SingleWriter, ReleasedIsSettled, StepsOK, ApprovalsOK, BackupsOK, IntentsEvolve,
      ApprovalsEvolve, OperationsEvolve, BackupsEvolve, RevocationHolds, TrapExcludes, TrapStopsBackups;
    var j' := RevokeIntent(j, intentID, digest, now).value;
    IntentFacts(j, intentID);
    UpdatedIntents(j.intents, j.intents[intentID].payload.(status := IntentRevoked, updatedAt := now));
    EvolvesReflexive(j);
    if j'.operations != j.operations {
      var k := OperationFor(j.operations, intentID);
      AbortGood(j, k, now);
      assert j'.operations == Saved(j.operations,
                                    j.operations[k].payload.(status := Aborted, released := true, updatedAt := now));
    }
    IntentsExtended(j.(operations := j'.operations), j'.intents);
  }

  lemma AbortGood(j: Journal, k: ID, now: Time)
    requires Consistent(j) && k in j.operations
    requires j.operations[k].payload.status == Queued && j.operations[k].payload.attempts == []
    ensures j.operations[k].payload.operationID == k
    ensures StepGood(j, j.(operations := Saved(j.operations,
                             j.operations[k].payload.(status := Aborted, released := true, updatedAt := now))))
  {
    hide Consistent, StepGood, StepsOK, AttemptsHaveRows, DistinctSteps, FindStep;
    OperationFacts(j, k);
    var next := j.operations[k].payload.(status := Aborted, released := true, updatedAt := now);
    StepsUnchanged(j.steps, j.operations, next);
    SavedOperation(j, next, j.steps);
    assert j.(operations := Saved(j.operations, next)) == j.(operations := Saved(j.operations, next), steps := j.steps);
  }

  lemma BackupStored(backups: Backups, operations: Operations, b: ID, row: BackupRow)
    requires BackupsOK(backups, operations) && BackupOK(row, b) && row.operationID in operations
    requires b in backups ==> BackupEvolves(backups[b], row)
    requires b !in backups ==> forall c :: c in backups ==> backups[c].operationID != row.operationID
    requires Trapped(operations[row.operationID].payload) ==>
               b in backups && (row.status == BackupValid ==> backups[b].status == BackupValid)
    ensures BackupsOK(backups[b := row], operations)
    ensures BackupsEvolve(backups, backups[b := row])
    ensures TrapStopsBackups(operations, backups, backups[b := row])
  {
    var next := backups[b := row];
    assert b in backups ==> backups[b].operationID == row.operationID;
    hide BackupOK, ValidBackup, Trapped;
  }

  lemma ReserveGood(j: Journal, r: BackupRecord, now: Time)
    requires Consistent(j) && ReserveBackup(j, r, now).Ok?
    ensures StepGood(j, ReserveBackup(j, r, now).value)
  {
    hide IntentsOK, OperationsOK, SingleWriter, ReleasedIsSettled, StepsOK, ApprovalsOK, BackupsOK, IntentsEvolve,
      ApprovalsEvolve, OperationsEvolve, BackupsEvolve, RevocationHolds, TrapExcludes, TrapStopsBackups,
      ValidateReady;
    EvolvesReflexive(j);
    BackupStored(j.backups, j.operations, r.backupID, BackupRow(r.operationID, r.status, r));
  }

  lemma MoveBackupGood(j: Journal, id: ID, to: BackupStatus)
    requires Consistent(j) && TransitionBackup(j, id, to).Ok?
    ensures StepGood(j, TransitionBackup(j, id, to).value)
  {
    hide IntentsOK, OperationsOK, SingleWriter, ReleasedIsSettled, StepsOK, ApprovalsOK, BackupsOK, IntentsEvolve,
      ApprovalsEvolve, OperationsEvolve, BackupsEvolve, RevocationHolds, TrapExcludes, TrapStopsBackups;
    BackupFacts(j, id);
    EvolvesReflexive(j);
    BackupStored(j.backups, j.operations, id,
                 j.backups[id].(status := to, payload := j.backups[id].payload.(status := to)));
  }

  lemma BackupFacts(j: Journal, b: ID)
    requires Consistent(j) && b in j.backups
    ensures BackupOK(j.backups[b], b) && j.backups[b].operationID in j.operations
  {
  }

  lemma CompleteGood(j: Journal, id: ID, digest: string, size: int, ready: ReadyEvidence, now: Time)
    requires Consistent(j) && CompleteBackup(j, id, digest, size, ready, now).Ok?
    ensures StepGood(j, CompleteBackup(j, id, digest, size, ready, now).value)
  {
    hide Consistent, StepGood, StepsOK, AttemptsHaveRows, DistinctSteps, ValidateReady;
    BackupFacts(j, id);
    var j' := CompleteBackup(j, id, digest, size, ready, now).value;
    var k := j.backups[id].operationID;
    OperationFacts(j, k);
    var op := j.operations[k].payload;
    ReadyEvidenceTellsOneTimeline(j.digests, ready, ready.offline.enrollment, j.intents[op.intentID].payload.intent,
                                  op, now);
    var next := j'.operations[k].payload;
    var a := next.attempts[5];
    CompletedOperation(j, next, a);
    BackupsOf(j);
    BackupStored(j.backups, j.operations, id, j'.backups[id]);
    CompletedJournal(j, j', next, a, id);
  }

  lemma BackupsOf(j: Journal)
    requires Consistent(j)
    ensures BackupsOK(j.backups, j.operations)
  {
  }

  lemma CompletedOperation(j: Journal, next: Operation, a: StepAttempt)
    requires Consistent(j) && SafeRewrite(j, next)
    requires |next.attempts| == 6 && |j.operations[next.operationID].payload.attempts| == 6
    requires a.stepID == j.operations[next.operationID].payload.attempts[5].stepID
    requires next.attempts == j.operations[next.operationID].payload.attempts[5 := a]
    requires a.attemptNo == j.operations[next.operationID].payload.attempts[5].attemptNo
    ensures a.stepID in j.steps
    ensures j.steps[a.stepID].(payload := a) == StepRow(next.operationID, a.attemptNo, a)
    ensures StepGood(j,
                     j.(operations := Saved(j.operations, next),
                        steps := j.steps[a.stepID := j.steps[a.stepID].(payload := a)]))
  {
    hide Consistent, StepGood;
    OperationFacts(j, next.operationID);
    StepStored(j.steps, j.operations, next, 5, a);
    SavedOperation(j, next, j.steps[a.stepID := StepRow(next.operationID, a.attemptNo, a)]);
  }

  lemma CompletedJournal(j: Journal, j': Journal, next: Operation, a: StepAttempt, id: ID)
    requires next.operationID in j.operations && a.stepID in j.steps && id in j'.backups
    requires StepGood(j,
                      j.(operations := Saved(j.operations, next),
                         steps := j.steps[a.stepID := j.steps[a.stepID].(payload := a)]))
    requires j' == j.(operations := Saved(j.operations, next),
                      steps := j.steps[a.stepID := j.steps[a.stepID].(payload := a)],
                      backups := j.backups[id := j'.backups[id]])
    requires BackupsOK(j'.backups, j.operations) && BackupsEvolve(j.backups, j'.backups)
    requires TrapStopsBackups(j.operations, j.backups, j'.backups)
    ensures StepGood(j, j')
  {
    hide StepsOK, SingleWriter, OperationsOK, ApprovalsOK, IntentsOK, ReleasedIsSettled;
  }

  /** Every store call keeps the journal consistent and moves it forward only. */
  lemma CallGood(j: Journal, call: Call)
    requires Consistent(j)
    ensures StepGood(j, Apply(j, call))
  {
    hide Consistent, Evolves, InsertIntent, ApproveIntent, RejectIntent, RevokeIntent, PrepareStep,
      MarkDispatchPossible, RecordStepObservation, MarkUnknown, TransitionOperation, ReserveBackup, TransitionBackup,
      CompleteBackup;
    if Commit(j, call).Err? {
      EvolvesReflexive(j);
    } else {
      match call
      case Insert(record) => InsertGood(j, record);
      case Approve(intentID, digest, approver, osUID, now, approvalID, operationID) =>
        ApproveGood(j, intentID, digest, approver, osUID, now, approvalID, operationID);
      case Reject(intentID, digest, approver, osUID, now, approvalID) =>
        RejectGood(j, intentID, digest, approver, osUID, now, approvalID);
      case Revoke(intentID, digest, now) => RevokeGood(j, intentID, digest, now);
      case Prepare(operationID, kind, now, stepID) => PrepareGood(j, operationID, kind, now, stepID);
      case MarkPossible(operationID, stepID, now) => MarkPossibleGood(j, operationID, stepID, now);
      case Record(operationID, stepID, effect, attribution, evidence, now) =>
        RecordGood(j, operationID, stepID, effect, attribution, evidence, now);
      case MarkUnresolved(operationID, now) => MarkUnresolvedGood(j, operationID, now);
      case Transition(operationID, to, verification, maintenanceReleased, now) =>
        TransitionGood(j, operationID, to, verification, maintenanceReleased, now);
      case Reserve(r, now) => ReserveGood(j, r, now);
      case MoveBackup(id, status) => MoveBackupGood(j, id, status);
      case Complete(id, digest, size, ready, now) => CompleteGood(j, id, digest, size, ready, now);
    }
  }

  lemma UnchangedIsGood(j: Journal)
    requires Consistent(j)
    ensures StepGood(j, j)
  {
    hide Consistent;
    EvolvesReflexive(j);
  }

  // ---- Whole histories ---------------------------------------------------------------

  lemma EmptyIsConsistent(digests: Digests)
    ensures Consistent(Empty(digests))
  {
  }

  lemma {:induction false} CallsGood(j: Journal, calls: seq<Call>)
    requires Consistent(j)
    ensures StepGood(j, ApplyAll(j, calls))
  {
    hide Consistent, Evolves, Apply;
    if calls == [] {
      EvolvesReflexive(j);
    } else {
      var middle := ApplyAll(j, calls[..|calls| - 1]);
      CallsGood(j, calls[..|calls| - 1]);
      CallGood(middle, calls[|calls| - 1]);
      OperationsOf(j);
      OperationsOf(middle);
      OperationsOf(Apply(middle, calls[|calls| - 1]));
      EvolvesTransitive(j, middle, Apply(middle, calls[|calls| - 1]));
    }
  }

  lemma OperationsOf(j: Journal)
    requires Consistent(j)
    ensures OperationsOK(j.operations, j.intents)
  {
  }

  ghost function After(digests: Digests, calls: seq<Call>): Journal {
    ApplyAll(Empty(digests), calls)
  }

  /** Every journal any clients can build is consistent, and stays ahead of itself. */
  lemma ReachableJournals(digests: Digests, calls: seq<Call>, more: seq<Call>)
    ensures Consistent(After(digests, calls))
    ensures Consistent(ApplyAll(After(digests, calls), more))
    ensures Evolves(After(digests, calls), ApplyAll(After(digests, calls), more))
  {
    hide Consistent, Evolves, Apply;
    EmptyIsConsistent(digests);
    CallsGood(Empty(digests), calls);
    CallsGood(After(digests, calls), more);
  }

  /** At most one unreleased operation per enrollment, and a released one never owns again. */
  lemma OneWriterPerEnrollment(digests: Digests, calls: seq<Call>, more: seq<Call>, k: ID, m: ID)
    requires var j := After(digests, calls); k in j.operations && m in j.operations
    ensures var j := After(digests, calls);
            (&& j.operations[k].payload.enrollmentID == j.operations[m].payload.enrollmentID
             && !j.operations[k].payload.released && !j.operations[m].payload.released) ==> k == m
    ensures var j := After(digests, calls);
            j.operations[k].payload.released ==>
              && k in ApplyAll(j, more).operations
              && ApplyAll(j, more).operations[k].payload.released
              && NoNewDispatch(j.operations[k].payload, ApplyAll(j, more).operations[k].payload)
  {
    ReachableJournals(digests, calls, more);
    OperationFacts(After(digests, calls), k);
    OperationFacts(After(digests, calls), m);
    hide ApplyAll;
    var j := After(digests, calls);
    assert OperationEvolves(j.operations[k].payload, ApplyAll(j, more).operations[k].payload);
  }

  /** An unresolved owner stays unresolved and unreleased, and nothing else starts on its enrollment. */
  lemma UnresolvedIsATrap(digests: Digests, calls: seq<Call>, more: seq<Call>, k: ID)
    requires k in After(digests, calls).operations && Trapped(After(digests, calls).operations[k].payload)
    ensures var j, j' := After(digests, calls), ApplyAll(After(digests, calls), more);
            && k in j'.operations && Trapped(j'.operations[k].payload)
            && NoNewDispatch(j.operations[k].payload, j'.operations[k].payload)
            && (forall m :: m in j'.operations && m !in j.operations ==>
                              j'.operations[m].enrollmentID != j.operations[k].enrollmentID)
            && (forall b :: b in j'.backups && j'.backups[b].operationID == k ==>
                              b in j.backups &&
                                (j'.backups[b].status == BackupValid ==> j.backups[b].status == BackupValid))
  {
    ReachableJournals(digests, calls, more);
    hide Consistent, ApplyAll;
    var j := After(digests, calls);
    assert OperationEvolves(j.operations[k].payload, ApplyAll(j, more).operations[k].payload);
  }

  /** An intent's bytes never change, it gets one decision, and an operation exists exactly for approval. */
  lemma AuthorityMovesOneWay(digests: Digests, calls: seq<Call>, more: seq<Call>, i: ID)
    requires i in After(digests, calls).intents
    ensures var j, j' := After(digests, calls), ApplyAll(After(digests, calls), more);
            && i in j'.intents && j'.intents[i].payload.intent == j.intents[i].payload.intent
            && (i in j.approvals ==> i in j'.approvals && j'.approvals[i] == j.approvals[i])
            && (HasOperationFor(j'.operations, i) <==>
                i in j'.approvals && j'.approvals[i].payload.decision == Approved)
            && (Closed(j.intents[i].payload.status) ==> j'.intents[i] == j.intents[i])
  {
    hide ApplyAll, Consistent, OperationsEvolve, BackupsEvolve, TrapExcludes, TrapStopsBackups, RevocationHolds;
    ReachableJournals(digests, calls, more);
    var j, j' := After(digests, calls), ApplyAll(After(digests, calls), more);
    IntentFacts(j, i);
    assert IntentEvolves(j.intents[i], j'.intents[i]);
    IntentFacts(j', i);
    OperationExactlyForApproval(j', i);
  }

  /** After a revocation commits, no attempt is prepared and none becomes possibly dispatched, ever. */
  lemma RevocationIsFinal(digests: Digests, calls: seq<Call>, more: seq<Call>, k: ID)
    requires k in After(digests, calls).operations
    requires Revoked(After(digests, calls).intents, After(digests, calls).operations[k].intentID)
    ensures var j, j' := After(digests, calls), ApplyAll(After(digests, calls), more);
            && k in j'.operations && NoNewDispatch(j.operations[k].payload, j'.operations[k].payload)
            && Revoked(j'.intents, j'.operations[k].intentID)
  {
    hide ApplyAll, Consistent, BackupsEvolve, TrapExcludes, TrapStopsBackups;
    ReachableJournals(digests, calls, more);
    var j, j' := After(digests, calls), ApplyAll(After(digests, calls), more);
    OperationFacts(j, k);
    assert OperationEvolves(j.operations[k].payload, j'.operations[k].payload);
    OperationFacts(j', k);
    assert IntentEvolves(j.intents[j.operations[k].intentID], j'.intents[j.operations[k].intentID]);
  }

  lemma OperationExactlyForApproval(j: Journal, i: ID)
    requires Consistent(j)
    ensures HasOperationFor(j.operations, i) <==> i in j.approvals && j.approvals[i].payload.decision == Approved
  {
    hide StepsOK, BackupsOK, SingleWriter, IntentsOK, OperationsOK, ReleasedIsSettled;
  }

  /** A revocation releases the writer exactly when it is still queued and has no attempt. */
  lemma RevocationReleasesOnlyQueued(j: Journal, i: ID, digest: string, now: Time, k: ID)
    requires Consistent(j) && RevokeIntent(j, i, digest, now).Ok?
    requires k in j.operations && !j.operations[k].payload.released
    ensures k in RevokeIntent(j, i, digest, now).value.operations
    ensures RevokeIntent(j, i, digest, now).value.operations[k].payload.released
            <==> j.operations[k].intentID == i && j.operations[k].payload.status == Queued &&
                 j.operations[k].payload.attempts == []
  {
    hide Consistent, StepsOK;
    OperationFacts(j, k);
    if HasOperationFor(j.operations, i) {
      var m := OperationFor(j.operations, i);
      OperationFacts(j, m);
      OneOperationPerIntent(j, k, m);
    }
  }

  lemma OneOperationPerIntent(j: Journal, k: ID, m: ID)
    requires Consistent(j) && k in j.operations && m in j.operations
    ensures j.operations[k].intentID == j.operations[m].intentID ==> k == m
  {
  }

  /** Once approved, every approval with the right digest returns the same decision and operation. */
  lemma ApprovalsAgree(digests: Digests, calls: seq<Call>, more: seq<Call>, i: ID, digest: string,
                       who: ID, uid: int, at: Time, a: ID, o: ID, who': ID, uid': int, at': Time, a': ID, o': ID)
    requires ApproveIntent(After(digests, calls), i, digest, who, uid, at, a, o).Ok?
    ensures var (j, approval, op) := ApproveIntent(After(digests, calls), i, digest, who, uid, at, a, o).value;
            var again := ApproveIntent(ApplyAll(j, more), i, digest, who', uid', at', a', o');
            && again.Ok? && again.value.0 == ApplyAll(j, more)
            && again.value.1 == approval && again.value.2.operationID == op.operationID
  {
    hide ApplyAll, Consistent, Evolves, ActiveOwner;
    ReachableJournals(digests, calls, []);
    var j0 := After(digests, calls);
    var (j, approval, op) := ApproveIntent(j0, i, digest, who, uid, at, a, o).value;
    ApproveGood(j0, i, digest, who, uid, at, a, o);
    CallsGood(j, more);
    assert op.operationID in j.operations && j.operations[op.operationID].intentID == i by {
      if i in j0.approvals { OperationFacts(j0, OperationFor(j0.operations, i)); }
    }
    ApprovalAndOperation(j, ApplyAll(j, more), i, op.operationID);
  }

  lemma ApprovalAndOperation(j: Journal, j': Journal, i: ID, k: ID)
    requires Consistent(j) && Consistent(j') && Evolves(j, j')
    ensures i in j.approvals ==> i in j'.approvals && j'.approvals[i] == j.approvals[i]
    ensures k in j.operations && j.operations[k].intentID == i ==>
              HasOperationFor(j'.operations, i) && OperationFor(j'.operations, i) == k &&
              j'.operations[k].payload.operationID == k
  {
    hide StepsOK, BackupsOK, SingleWriter, ApprovalsOK, IntentsOK;
    if k in j.operations && j.operations[k].intentID == i {
      assert OperationOK(j.operations[k], k, j.intents) && OperationOK(j'.operations[k], k, j'.intents);
      assert OperationEvolves(j.operations[k].payload, j'.operations[k].payload);
      assert j'.operations[k].intentID == i;
    }
  }

  /**
   PutIntent looks up, inserts, and looks up again. When calls of others slip in and the
   insert fails, the last lookup answers as one undisturbed PutIntent at that moment would.
   */
  lemma RacedPutIsAtomic(digests: Digests, calls: seq<Call>, more: seq<Call>, record: IntentRecord)
    requires InsertIntent(After(digests, calls), record).Err?
    ensures var late := ApplyAll(After(digests, calls), more);
            match ResolveIntent(late, record)
            case Ok(existing) => PutIntent(late, record) == Ok((late, existing, false))
            case Err(code) => PutIntent(late, record) == Err(code)
  {
    hide ApplyAll, Consistent, OperationsEvolve, BackupsEvolve, TrapExcludes, TrapStopsBackups, RevocationHolds;
    ReachableJournals(digests, calls, more);
    var j, late := After(digests, calls), ApplyAll(After(digests, calls), more);
    var i := record.intent;
    if HasClientKey(j.intents, i.principalID, i.enrollmentID, i.clientRequestID) {
      var k := HolderOfKey(j.intents, i.principalID, i.enrollmentID, i.clientRequestID);
      KeyIsKept(j, late, record, k);
    } else {
      assert IntentEvolves(j.intents[i.intentID], late.intents[i.intentID]);
    }
  }

  lemma KeyIsKept(j: Journal, late: Journal, record: IntentRecord, k: ID)
    requires Consistent(j) && Consistent(late) && Evolves(j, late)
    requires k in j.intents && SharesClientKey(j.intents[k], RowOfIntent(record))
    ensures var i := record.intent;
            HasClientKey(late.intents, i.principalID, i.enrollmentID, i.clientRequestID) &&
            HolderOfKey(late.intents, i.principalID, i.enrollmentID, i.clientRequestID) == k &&
            late.intents[k].payload.intent == j.intents[k].payload.intent &&
            late.intents[k].payload.proposalDigest == j.intents[k].payload.proposalDigest
  {
    hide Consistent, OperationsEvolve, BackupsEvolve, TrapExcludes, TrapStopsBackups, RevocationHolds;
    IntentFacts(j, k);
    assert IntentEvolves(j.intents[k], late.intents[k]);
    IntentFacts(late, k);
    var i := record.intent;
    assert SameClientKey(late.intents[k], i.principalID, i.enrollmentID, i.clientRequestID);
    OneHolderOfKey(late, k, HolderOfKey(late.intents, i.principalID, i.enrollmentID, i.clientRequestID));
  }

  lemma OneHolderOfKey(j: Journal, k: ID, m: ID)
    requires Consistent(j) && k in j.intents && m in j.intents
    ensures SharesClientKey(j.intents[m], j.intents[k]) ==> k == m
  {
  }

  /** A client key names one proposal forever: repeating it returns the frozen intent, changing it conflicts. */
  lemma ProposalsAreIdempotent(digests: Digests, calls: seq<Call>, more: seq<Call>,
                               record: IntentRecord, again: IntentRecord)
    requires PutIntent(After(digests, calls), record).Ok?
    requires SharesClientKey(RowOfIntent(again), RowOfIntent(record))
    ensures var (j, stored, _) := PutIntent(After(digests, calls), record).value;
            var late := ApplyAll(j, more);
            if again.proposalDigest == record.proposalDigest
            then && PutIntent(late, again).Ok?
                 && PutIntent(late, again).value.0 == late && !PutIntent(late, again).value.2
                 && PutIntent(late, again).value.1.intent == stored.intent
            else PutIntent(late, again) == Err(IdempotencyConflict)
  {
    hide ApplyAll, Consistent, Evolves;
    ReachableJournals(digests, calls, []);
    var j0 := After(digests, calls);
    var (j, stored, created) := PutIntent(j0, record).value;
    var k := if created then record.intent.intentID
             else HolderOfKey(j0.intents, record.intent.principalID, record.intent.enrollmentID,
                              record.intent.clientRequestID);
    if created { InsertGood(j0, record); }
    CallsGood(j, more);
    IntentFacts(j, k);
    assert stored == j.intents[k].payload;
    KeyIsKept(j, ApplyAll(j, more), again, k);
  }

  /** A backup that is VALID, FAILED, UNKNOWN or ORPHANED never changes again: none of them becomes another. */
  lemma FinalBackupIsForever(digests: Digests, calls: seq<Call>, more: seq<Call>, b: ID)
    requires b in After(digests, calls).backups
    requires FinalBackup(After(digests, calls).backups[b].payload.status)
    ensures var j, j' := After(digests, calls), ApplyAll(After(digests, calls), more);
            b in j'.backups && j'.backups[b] == j.backups[b]
  {
    hide ApplyAll;
    ReachableJournals(digests, calls, more);
    BackupFacts(After(digests, calls), b);
    hide Consistent;
    assert BackupEvolves(After(digests, calls).backups[b], ApplyAll(After(digests, calls), more).backups[b]);
  }

  /** A valid backup is immutable and tells one timeline from the last player check to the offline archive. */
  lemma ValidBackupIsForever(digests: Digests, calls: seq<Call>, more: seq<Call>, b: ID)
    requires b in After(digests, calls).backups
    requires After(digests, calls).backups[b].payload.status == BackupValid
    ensures var j, j' := After(digests, calls), ApplyAll(After(digests, calls), more);
            && b in j'.backups && j'.backups[b] == j.backups[b]
            && Timeline(j.backups[b].payload.ready, j.backups[b].payload.completedAt)
            && j.backups[b].payload.ready.stop.operationID == j.backups[b].payload.operationID
  {
    ReachableJournals(digests, calls, more);
    BackupFacts(After(digests, calls), b);
    hide Consistent, ApplyAll;
    assert BackupEvolves(After(digests, calls).backups[b], ApplyAll(After(digests, calls), more).backups[b]);
  }

  lemma SomeOwner(operations: Operations, enrollmentID: ID)
    ensures ActiveOwner(operations, enrollmentID).Ok? <==>
            forall k :: k in operations ==> !Owns(operations[k], enrollmentID)
    ensures ActiveOwner(operations, enrollmentID) == Err(TargetBlockedUnknown) ==>
              exists k :: k in operations && Owns(operations[k], enrollmentID) &&
                          operations[k].status in {Unknown, NeedsIntervention}
    ensures ActiveOwner(operations, enrollmentID).Err? &&
            ActiveOwner(operations, enrollmentID) != Err(TargetBlockedUnknown) ==>
              exists k :: k in operations && Owns(operations[k], enrollmentID) &&
                          operations[k].status !in {Unknown, NeedsIntervention}
  {
  }

  /** The index scan picks some unreleased row; any pick answers as the payloads would. */
  lemma ActiveOwnerReadsPayloads(j: Journal, enrollmentID: ID)
    requires Consistent(j)
    ensures var held := set k | k in j.operations && j.operations[k].payload.enrollmentID == enrollmentID &&
                                !j.operations[k].payload.released;
            && |held| <= 1
            && (ActiveOwner(j.operations, enrollmentID).Ok? <==> held == {})
            && (ActiveOwner(j.operations, enrollmentID) == Err(TargetBlockedUnknown)
                <==> exists k :: k in held && Trapped(j.operations[k].payload))
  {
    hide ActiveOwner, StepsOK, BackupsOK, ApprovalsOK, IntentsOK;
    var held := set k | k in j.operations && j.operations[k].payload.enrollmentID == enrollmentID &&
                        !j.operations[k].payload.released;
    forall k | k in j.operations ensures k in held <==> Owns(j.operations[k], enrollmentID) {
      assert OperationOK(j.operations[k], k, j.intents);
    }
    SomeOwner(j.operations, enrollmentID);
    if k :| k in held {
      assert forall m :: m in held ==> m == k;
      assert held == {k};
      assert OperationOK(j.operations[k], k, j.intents);
    }
  }

  lemma ColumnsArePayloads(j: Journal, k: ID)
    requires Consistent(j) && k in j.operations
    ensures var row := j.operations[k];
            && row.status == row.payload.status && row.released == row.payload.released
            && row.payload.intentID in j.intents
            && j.intents[row.payload.intentID].status == j.intents[row.payload.intentID].payload.status
  {
    OperationFacts(j, k);
  }

  /** The step with this ID, as its row and as its operation tell it. */
  lemma StepRowIsAttempt(j: Journal, k: ID, stepID: ID)
    requires Consistent(j) && k in j.operations
    ensures var attempts := j.operations[k].payload.attempts;
            var n := FindStep(attempts, stepID);
            && (n < |attempts| <==> stepID in j.steps && j.steps[stepID].operationID == k)
            && (n < |attempts| ==> j.steps[stepID].payload == attempts[n])
  {
    hide Consistent, FindStep, OperationOK;
    OperationFacts(j, k);
  }

  /** The guard as the payloads of the operation, its intent and the step's own row would decide it. */
  predicate PayloadsAllowDispatch(j: Journal, k: ID, stepID: ID) {
    && k in j.operations
    && var op := j.operations[k].payload;
    && !op.released && !IsTerminal(op.status) && op.status != Unknown
    && op.intentID in j.intents && j.intents[op.intentID].payload.status == IntentConsumed
    && stepID in j.steps && j.steps[stepID].operationID == k && j.steps[stepID].payload.Untouched()
  }

  /**
   The dispatch guard reads the status column and the operation's copy of the step, and decides as the payloads would.
   */
  lemma DispatchGuardReadsPayloads(j: Journal, k: ID, stepID: ID, now: Time)
    requires Consistent(j)
    ensures MarkDispatchPossible(j, k, stepID, now).Ok? <==> PayloadsAllowDispatch(j, k, stepID)
  {
    hide Consistent, FindStep;
    NamedByKey(j);
    if k in j.operations {
      ColumnsArePayloads(j, k);
      StepRowIsAttempt(j, k, stepID);
    }
  }

  /** An observation of this effect takes an operation out of its status. */
  predicate Displaces(status: OperationStatus, effect: EffectState) {
    || (effect == EffectUnknown && status != Unknown)
    || (effect == OtherObserved && status != NeedsIntervention)
  }

  /**
   Terminal statuses are not absorbing: an observation rewrites the status without the transition table.
   A status is left exactly when an unknown or other effect is recorded for a step that may have been dispatched.
   */
  lemma TerminalStatusLeavesOnlyByObservation(j: Journal, call: Call, k: ID)
    requires Consistent(j) && k in j.operations && IsTerminal(j.operations[k].payload.status)
    ensures k in Apply(j, call).operations
    ensures Apply(j, call).operations[k].payload.status != j.operations[k].payload.status
            <==> && call.Record? && call.operationID == k
                 && var attempts := j.operations[k].payload.attempts;
                    var n := FindStep(attempts, call.stepID);
                 && n < |attempts| && attempts[n].dispatch != NotDispatched
                 && Displaces(j.operations[k].payload.status, call.effect)
  {
    hide Consistent;
    NamedByKey(j);
    if call.Record? {
      ObservationOnTerminal(j, call, k);
    } else {
      TerminalKept(j, call, k);
    }
  }

  ghost predicate Named(j: Journal) {
    && (forall m :: m in j.operations ==> j.operations[m].payload.operationID == m)
  }

  lemma NamedByKey(j: Journal)
    requires Consistent(j)
    ensures Named(j)
  {
    forall m | m in j.operations ensures j.operations[m].payload.operationID == m { OperationFacts(j, m); }
  }

  lemma TerminalKept(j: Journal, call: Call, k: ID)
    requires Named(j) && k in j.operations && IsTerminal(j.operations[k].payload.status) && !call.Record?
    ensures k in Apply(j, call).operations && Apply(j, call).operations[k] == j.operations[k]
  {
    hide Apply;
    if call.Prepare? || call.MarkPossible? { TerminalKeptBySteps(j, call, k); }
    else if call.MarkUnresolved? || call.Transition? { TerminalKeptByTransitions(j, call, k); }
    else if call.Revoke? { TerminalKeptByRevoke(j, call, k); }
    else if call.Complete? { TerminalKeptByCompletion(j, call, k); }
    else { TerminalKeptByOthers(j, call, k); }
  }

  lemma TerminalKeptBySteps(j: Journal, call: Call, k: ID)
    requires Named(j) && k in j.operations && IsTerminal(j.operations[k].payload.status)
    requires call.Prepare? || call.MarkPossible?
    ensures k in Apply(j, call).operations && Apply(j, call).operations[k] == j.operations[k]
  {
  }

  lemma TerminalKeptByTransitions(j: Journal, call: Call, k: ID)
    requires Named(j) && k in j.operations && IsTerminal(j.operations[k].payload.status)
    requires call.MarkUnresolved? || call.Transition?
    ensures k in Apply(j, call).operations && Apply(j, call).operations[k] == j.operations[k]
  {
  }

  lemma TerminalKeptByRevoke(j: Journal, call: Call, k: ID)
    requires Named(j) && k in j.operations && IsTerminal(j.operations[k].payload.status)
    requires call.Revoke?
    ensures k in Apply(j, call).operations && Apply(j, call).operations[k] == j.operations[k]
  {
    hide UpdateIntent;
  }

  lemma TerminalKeptByCompletion(j: Journal, call: Call, k: ID)
    requires Named(j) && k in j.operations && IsTerminal(j.operations[k].payload.status)
    requires call.Complete?
    ensures k in Apply(j, call).operations && Apply(j, call).operations[k] == j.operations[k]
  {
    hide ValidateReady;
  }

  lemma TerminalKeptByOthers(j: Journal, call: Call, k: ID)
    requires Named(j) && k in j.operations && IsTerminal(j.operations[k].payload.status)
    requires call.Insert? || call.Approve? || call.Reject? || call.Reserve? || call.MoveBackup?
    ensures k in Apply(j, call).operations && Apply(j, call).operations[k] == j.operations[k]
  {
    hide ValidateReady, ActiveOwner, MatchesIntent, UpdateIntent;
  }

  lemma ObservationOnTerminal(j: Journal, call: Call, k: ID)
    requires Named(j) && k in j.operations && call.Record?
    ensures k in Apply(j, call).operations
    ensures var attempts := j.operations[k].payload.attempts;
            var n := FindStep(attempts, call.stepID);
            Apply(j, call).operations[k].payload.status ==
            if call.operationID == k && n < |attempts| && attempts[n].dispatch != NotDispatched
            then StatusAfter(j.operations[k].payload.status, call.effect) else j.operations[k].payload.status
  {
    hide FindStep, Observed, ErrorAfter, UpdateStep, SaveAttempt;
    if call.operationID in j.operations {
      var target := j.operations[call.operationID].payload;
      var m := FindStep(target.attempts, call.stepID);
      if m < |target.attempts| {
        var a := Observed(target.attempts[m], call.effect, call.attribution, call.evidence, call.now);
        SavedStatus(j, call.operationID, target, m, a, StatusAfter(target.status, call.effect),
                    ErrorAfter(target.lastError, call.effect), call.now, k);
      }
    }
  }

  lemma SavedStatus(j: Journal, operationID: ID, op: Operation, n: nat, a: StepAttempt, status: OperationStatus,
                    lastError: string, now: Time, k: ID)
    requires operationID in j.operations && op.operationID == operationID && n < |op.attempts| && k in j.operations
    ensures var r := SaveAttempt(j, operationID, op, n, a, status, lastError, now);
            && r.Ok? && k in r.value.operations
            && r.value.operations[k].payload.status ==
               if k == operationID then status else j.operations[k].payload.status
  {
  }
}
