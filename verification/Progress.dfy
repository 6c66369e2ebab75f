/**
 With only coordinators and operators at work, the attempts of an operation are
 always a prefix of the fixed steps, and every attempt but the last is complete
 unless the operation is unresolved, even when several coordinators race.
 */
module Progress {
  import opened Octets
  import opened Domain
  import opened Journal
  import opened JournalSafety
  import opened Workflow
  import opened AtMostOnce

  predicate OperatorCall(call: Call) {
    call.Insert? || call.Approve? || call.Reject? || call.Revoke?
  }

  /** Besides coordinators and inspectors, only operators and proposers call the store. */
  predicate Internal(action: Action) {
    action.Client? ==> OperatorCall(action.call)
  }

  // ---- The shape of an operation --------------------------------------------

  predicate Pending(a: StepAttempt) {
    a.dispatch == DispatchPossible && a.effect == EffectUnknown && a.attribution == Unattributed
  }

  /** A stop observed but not attributed to this operation. */
  predicate Orphaned(a: StepAttempt) {
    a.dispatch == DispatchPossible && a.effect == ExpectedObserved && a.attribution == Unattributed
  }

  predicate InOrder(op: Operation) {
    && (forall n :: 0 <= n < |op.attempts| - 1 ==> op.attempts[n].Complete())
    && (op.attempts != [] ==>
          var last := op.attempts[|op.attempts| - 1];
          last.Untouched() || Pending(last) || (|op.attempts| == 4 && Orphaned(last)) || last.Complete())
    && (|op.attempts| > 3 && op.attempts[3].dispatch != NotDispatched ==> op.status == Executing)
  }

  ghost predicate Shape(op: Operation, intent: IntentRow) {
    && |op.attempts| <= 6
    && (forall n :: 0 <= n < |op.attempts| ==> op.attempts[n].kind == FIXED_STEPS[n])
    && (op.attempts != [] ==> intent.payload.intent.steps == FIXED_STEPS && op.status != Queued)
    && op.status in {Queued, Preparing, Executing, Unknown, NeedsIntervention, Aborted}
    && (op.released <==> op.status == Aborted)
    && (op.status == Aborted ==> op.attempts == [])
    && op.verification == NotStarted
    && (Trapped(op) || InOrder(op))
  }

  ghost predicate ShapesOK(j: Journal) {
    forall k :: k in j.operations ==>
                  j.operations[k].intentID in j.intents &&
                  Shape(j.operations[k].payload, j.intents[j.operations[k].intentID])
  }

  /** Between marking a step and recording its outcome, nobody but the holder can finish it. */
  predicate Held(op: Operation, n: nat) {
    Trapped(op) || (|op.attempts| == n + 1 && Pending(op.attempts[n]))
  }

  // ---- What the calls do to one operation --------------------------------------

  /** Only operation k may differ. */
  ghost predicate Only(j: Journal, j': Journal, k: ID) {
    && j'.intents == j.intents && j'.operations.Keys == j.operations.Keys
    && forall m :: m in j.operations && m != k ==> j'.operations[m] == j.operations[m]
  }

  ghost predicate KeepsHolds(op: Operation, next: Operation) {
    forall n: nat :: Held(op, n) ==> Held(next, n)
  }

  predicate StepCall(call: Call) {
    call.Prepare? || call.MarkPossible? || call.Record? || call.MarkUnresolved? || call.Transition?
  }

  lemma StepCallTouchesOne(j: Journal, call: Call)
    requires Named(j) && StepCall(call)
    ensures Only(j, Apply(j, call), call.operationID)
    ensures Commit(j, call).Err? ==> Apply(j, call) == j
  {
    if call.Prepare? { PrepareTouchesOne(j, call); }
    else if call.MarkPossible? || call.Record? { AttemptTouchesOne(j, call); }
    else { hide PrepareStep, MarkDispatchPossible, RecordStepObservation; }
  }

  lemma PrepareTouchesOne(j: Journal, call: Call)
    requires Named(j) && call.Prepare?
    ensures Only(j, Apply(j, call), call.operationID)
  {
  }

  lemma AttemptTouchesOne(j: Journal, call: Call)
    requires Named(j) && (call.MarkPossible? || call.Record?)
    ensures Only(j, Apply(j, call), call.operationID)
  {
  }

  /** The operation after a call that does not belong to its holder. */
  ghost predicate GoodMove(j: Journal, j': Journal, k: ID) {
    && Only(j, j', k)
    && (k in j.operations ==>
          && j.operations[k].intentID in j.intents
          && Shape(j'.operations[k].payload, j.intents[j.operations[k].intentID])
          && KeepsHolds(j.operations[k].payload, j'.operations[k].payload))
  }

  lemma ShapeOf(j: Journal, k: ID)
    requires Consistent(j) && ShapesOK(j) && k in j.operations
    ensures j.operations[k].intentID in j.intents
    ensures Shape(j.operations[k].payload, j.intents[j.operations[k].intentID])
    ensures OperationOK(j.operations[k], k, j.intents)
    ensures DistinctSteps(j.operations[k].payload.attempts)
    ensures Named(j)
  {
    hide Consistent, Shape;
    OperationFacts(j, k);
    NamedByKey(j);
  }

  lemma StatusShape(op: Operation, to: OperationStatus, intent: IntentRow, now: Time)
    requires Shape(op, intent) && CanTransition(op.status, to) && (to == Preparing || to == Executing)
    ensures !op.released
    ensures Shape(op.(status := to, verification := NotStarted, updatedAt := now), intent)
    ensures KeepsHolds(op, op.(status := to, verification := NotStarted, updatedAt := now))
  {
  }

  lemma TransitionedRow(j: Journal, k: ID, to: OperationStatus, now: Time)
    requires Named(j) && TransitionOperation(j, k, to, NotStarted, false, now).Ok? && !Releases(to)
    ensures k in j.operations && CanTransition(j.operations[k].payload.status, to)
    ensures TransitionOperation(j, k, to, NotStarted, false, now).value.operations[k].payload ==
            j.operations[k].payload.(status := to, verification := NotStarted, updatedAt := now)
  {
  }

  lemma TransitionMove(j: Journal, k: ID, to: OperationStatus, now: Time)
    requires Consistent(j) && ShapesOK(j) && (to == Preparing || to == Executing)
    ensures GoodMove(j, Apply(j, Transition(k, to, NotStarted, false, now)), k)
  {
    hide Consistent, ShapesOK, StepsOK, Shape, KeepsHolds, TransitionOperation, DistinctSteps, CanTransition;
    NamedByKey(j);
    StepCallTouchesOne(j, Transition(k, to, NotStarted, false, now));
    if k in j.operations {
      ShapeOf(j, k);
      HoldsKept(j.operations[k].payload);
      if TransitionOperation(j, k, to, NotStarted, false, now).Ok? {
        TransitionedRow(j, k, to, now);
        StatusShape(j.operations[k].payload, to, j.intents[j.operations[k].intentID], now);
      }
    }
  }

  /** Any rewrite that leaves the operation unresolved and its steps in place. */
  lemma TrappedShape(op: Operation, next: Operation, intent: IntentRow)
    requires Shape(op, intent) && Trapped(next) && |next.attempts| == |op.attempts|
    requires next.verification == op.verification
    requires forall n :: 0 <= n < |op.attempts| ==> next.attempts[n].kind == op.attempts[n].kind
    ensures Shape(next, intent) && KeepsHolds(op, next)
  {
  }

  lemma ObservedRow(j: Journal, k: ID, stepID: ID, effect: EffectState, attribution: Attribution,
                    evidence: seq<Evidence>, now: Time)
    requires Named(j) && RecordStepObservation(j, k, stepID, effect, attribution, evidence, now).Ok?
    ensures k in j.operations
    ensures var op := j.operations[k].payload;
            var n := FindStep(op.attempts, stepID);
            && n < |op.attempts| && op.attempts[n].dispatch != NotDispatched
            && RecordStepObservation(j, k, stepID, effect, attribution, evidence, now).value.operations[k].payload ==
               op.(attempts := op.attempts[n := Observed(op.attempts[n], effect, attribution, evidence, now)],
                   status := StatusAfter(op.status, effect), lastError := ErrorAfter(op.lastError, effect),
                   updatedAt := now)
  {
  }

  lemma UnresolvedRow(j: Journal, k: ID, now: Time)
    requires Named(j) && MarkUnknown(j, k, now).Ok?
    ensures k in j.operations && k in MarkUnknown(j, k, now).value.operations
    ensures var op, next := j.operations[k].payload, MarkUnknown(j, k, now).value.operations[k].payload;
            Trapped(next) && next.attempts == op.attempts && next.verification == op.verification
  {
  }

  lemma MarkUnresolvedMove(j: Journal, k: ID, now: Time)
    requires Consistent(j) && ShapesOK(j)
    ensures GoodMove(j, Apply(j, MarkUnresolved(k, now)), k)
  {
    hide Consistent, ShapesOK, StepsOK, DistinctSteps, Shape, Trapped, KeepsHolds, MarkUnknown;
    NamedByKey(j);
    StepCallTouchesOne(j, MarkUnresolved(k, now));
    if k in j.operations {
      ShapeOf(j, k);
      if MarkUnknown(j, k, now).Ok? {
        UnresolvedRow(j, k, now);
        TrappedShape(j.operations[k].payload, MarkUnknown(j, k, now).value.operations[k].payload,
                     j.intents[j.operations[k].intentID]);
      } else {
        HoldsKept(j.operations[k].payload);
      }
    }
  }

  lemma ObservedIsUnresolved(op: Operation, intent: IntentRow, n: nat, a: StepAttempt, effect: EffectState,
                             error: string,
                             now: Time)
    requires Shape(op, intent) && n < |op.attempts| && a.kind == op.attempts[n].kind
    requires effect == EffectUnknown || effect == OtherObserved
    ensures var next := op.(attempts := op.attempts[n := a], status := StatusAfter(op.status, effect),
                            lastError := error,
                            updatedAt := now);
            Shape(next, intent) && KeepsHolds(op, next)
  {
    hide InOrder, KeepsHolds;
    TrappedShape(op, op.(attempts := op.attempts[n := a], status := StatusAfter(op.status, effect), lastError := error,
                         updatedAt := now), intent);
  }

  /** Recording an unknown or other effect makes the operation unresolved, whoever does it. */
  lemma UnresolvedMove(j: Journal, k: ID, stepID: ID, effect: EffectState, attribution: Attribution,
                       evidence: seq<Evidence>, now: Time)
    requires Consistent(j) && ShapesOK(j) && (effect == EffectUnknown || effect == OtherObserved)
    ensures GoodMove(j, Apply(j, Record(k, stepID, effect, attribution, evidence, now)), k)
  {
    hide Consistent, ShapesOK, StepsOK, Shape, KeepsHolds, RecordStepObservation, DistinctSteps, FindStep;
    NamedByKey(j);
    StepCallTouchesOne(j, Record(k, stepID, effect, attribution, evidence, now));
    if k in j.operations {
      ShapeOf(j, k);
      var op := j.operations[k].payload;
      if RecordStepObservation(j, k, stepID, effect, attribution, evidence, now).Ok? {
        ObservedRow(j, k, stepID, effect, attribution, evidence, now);
        var n := FindStep(op.attempts, stepID);
        ObservedIsUnresolved(op, j.intents[j.operations[k].intentID], n,
                             Observed(op.attempts[n], effect, attribution, evidence, now), effect,
                             ErrorAfter(op.lastError, effect), now);
      } else {
        HoldsKept(op);
      }
    }
  }

  lemma HoldsKept(op: Operation)
    ensures KeepsHolds(op, op)
  {
  }

  lemma AppendedShape(op: Operation, a: StepAttempt, intent: IntentRow, now: Time)
    requires Shape(op, intent) && !Trapped(op) && op.status != Queued && op.status != Aborted && |op.attempts| <= 5
    requires intent.payload.intent.steps == FIXED_STEPS
    requires AllComplete(op.attempts) && a.Untouched() && a.kind == FIXED_STEPS[|op.attempts|]
    ensures Shape(op.(attempts := op.attempts + [a], updatedAt := now), intent)
    ensures KeepsHolds(op, op.(attempts := op.attempts + [a], updatedAt := now))
  {
    var next := op.(attempts := op.attempts + [a], updatedAt := now);
    assert forall n :: 0 <= n < |op.attempts| ==> next.attempts[n] == op.attempts[n];
  }

  lemma PreparedRow(j: Journal, k: ID, kind: StepKind, now: Time, stepID: ID)
    requires Named(j) && PrepareStep(j, k, kind, now, stepID).Ok?
    ensures k in j.operations
    ensures var op := j.operations[k].payload;
            var (j', a) := PrepareStep(j, k, kind, now, stepID).value;
            && !Trapped(op) && !op.released && op.status != Aborted && AllComplete(op.attempts)
            && a.Untouched() && a.kind == kind
            && j'.operations[k].payload == op.(attempts := op.attempts + [a], updatedAt := now)
  {
  }

  lemma PrepareMove(j: Journal, k: ID, i: ChangeIntent, n: nat, now: Time, stepID: ID)
    requires Consistent(j) && ShapesOK(j) && Bound(j, k, i) && n <= 5 && j.operations[k].payload.status != Queued
    ensures GoodMove(j, Apply(j, Prepare(k, FIXED_STEPS[n], now, stepID)), k)
  {
    hide Consistent, ShapesOK, StepsOK, Shape, KeepsHolds, PrepareStep, DistinctSteps, At;
    NamedByKey(j);
    StepCallTouchesOne(j, Prepare(k, FIXED_STEPS[n], now, stepID));
    ShapeOf(j, k);
    var op := j.operations[k].payload;
    if PrepareStep(j, k, FIXED_STEPS[n], now, stepID).Ok? {
      PreparedAt(j, k, i, n, now, stepID);
      PreparedRow(j, k, FIXED_STEPS[n], now, stepID);
      AppendedShape(op, PrepareStep(j, k, FIXED_STEPS[n], now, stepID).value.1, j.intents[j.operations[k].intentID],
                    now);
    } else {
      HoldsKept(op);
    }
  }

  // ---- What the holder does ----------------------------------------------------------

  lemma MarkedShape(op: Operation, n: nat, a: StepAttempt, intent: IntentRow, now: Time)
    requires Shape(op, intent) && !op.released && !Trapped(op) && n < |op.attempts| && op.attempts[n].Untouched()
    requires a.kind == op.attempts[n].kind && Pending(a)
    requires n == 3 ==> op.status != Queued && op.status != Preparing
    ensures Shape(op.(attempts := op.attempts[n := a], updatedAt := now), intent)
    ensures Held(op.(attempts := op.attempts[n := a], updatedAt := now), n)
    ensures forall m: nat :: !Held(op, m)
  {
    assert n == |op.attempts| - 1;
  }

  lemma MarkedRow(j: Journal, k: ID, n: nat, stepID: ID, now: Time)
    requires Named(j) && At(j, k, n, stepID) && DistinctSteps(j.operations[k].payload.attempts)
    requires MarkDispatchPossible(j, k, stepID, now).Ok?
    ensures var op := j.operations[k].payload;
            var next := MarkDispatchPossible(j, k, stepID, now).value.operations[k].payload;
            && !op.released && !Trapped(op) && op.attempts[n].Untouched()
            && |next.attempts| == |op.attempts| && next.attempts[n].kind == op.attempts[n].kind &&
              Pending(next.attempts[n])
            && next == op.(attempts := op.attempts[n := next.attempts[n]], updatedAt := now)
  {
    FindStepFinds(j.operations[k].payload.attempts, n);
  }

  /** Marking succeeds only on the last attempt, so nobody holds this operation yet. */
  lemma MarkMove(j: Journal, k: ID, n: nat, stepID: ID, now: Time)
    requires Consistent(j) && ShapesOK(j) && At(j, k, n, stepID)
    requires n == 3 ==> j.operations[k].payload.status != Queued && j.operations[k].payload.status != Preparing
    requires Commit(j, MarkPossible(k, stepID, now)).Ok?
    ensures var j' := Apply(j, MarkPossible(k, stepID, now));
            && Only(j, j', k) && j.operations[k].intentID in j.intents
            && Shape(j'.operations[k].payload, j.intents[j.operations[k].intentID])
            && Held(j'.operations[k].payload, n)
            && forall m: nat :: !Held(j.operations[k].payload, m)
  {
    hide Consistent, ShapesOK, StepsOK, Shape, Held, MarkDispatchPossible, DistinctSteps;
    NamedByKey(j);
    StepCallTouchesOne(j, MarkPossible(k, stepID, now));
    ShapeOf(j, k);
    MarkedRow(j, k, n, stepID, now);
    MarkedShape(j.operations[k].payload, n,
                MarkDispatchPossible(j, k, stepID, now).value.operations[k].payload.attempts[n],
                j.intents[j.operations[k].intentID], now);
  }

  lemma ClosedShape(op: Operation, n: nat, a: StepAttempt, lastError: string, intent: IntentRow, now: Time)
    requires Shape(op, intent) && Held(op, n) && n < |op.attempts| && a.kind == op.attempts[n].kind
    requires op.attempts[n].dispatch != NotDispatched
    requires a.Complete() || (n == 3 && Orphaned(a))
    ensures Shape(op.(attempts := op.attempts[n := a], lastError := lastError, updatedAt := now), intent)
  {
  }

  /** The holder records its outcome: complete, or a stop it cannot attribute. */
  lemma RecordMove(j: Journal, k: ID, n: nat, stepID: ID, attribution: Attribution, evidence: seq<Evidence>, now: Time)
    requires Consistent(j) && ShapesOK(j) && At(j, k, n, stepID) && Held(j.operations[k].payload, n)
    requires attribution == Correlated || (attribution == Unattributed && n == 3)
    ensures var j' := Apply(j, Record(k, stepID, ExpectedObserved, attribution, evidence, now));
            Only(j, j', k) && j.operations[k].intentID in j.intents &&
            Shape(j'.operations[k].payload, j.intents[j.operations[k].intentID])
  {
    hide Consistent, ShapesOK, StepsOK, Shape, RecordStepObservation;
    NamedByKey(j);
    StepCallTouchesOne(j, Record(k, stepID, ExpectedObserved, attribution, evidence, now));
    ShapeOf(j, k);
    var op := j.operations[k].payload;
    FindStepFinds(op.attempts, n);
    if RecordStepObservation(j, k, stepID, ExpectedObserved, attribution, evidence, now).Ok? {
      ObservedRow(j, k, stepID, ExpectedObserved, attribution, evidence, now);
      var a := Observed(op.attempts[n], ExpectedObserved, attribution, evidence, now);
      if Trapped(op) {
        TrappedShape(op, op.(attempts := op.attempts[n := a], updatedAt := now), j.intents[j.operations[k].intentID]);
      } else {
        ClosedShape(op, n, a, op.lastError, j.intents[j.operations[k].intentID], now);
      }
    }
  }

  lemma CompletedShape(op: Operation, a: StepAttempt, intent: IntentRow, now: Time)
    requires Shape(op, intent) && |op.attempts| == 6 && op.status == Executing && a.kind == op.attempts[5].kind &&
             a.Complete()
    ensures Shape(op.(attempts := op.attempts[5 := a], updatedAt := now), intent)
  {
  }

  lemma CompletedRow(j: Journal, id: ID, digest: string, size: int, ready: ReadyEvidence, now: Time)
    requires Named(j) && id in j.backups && j.backups[id].payload.operationID == j.backups[id].operationID
    requires Commit(j, Complete(id, digest, size, ready, now)).Ok?
    ensures var k := j.backups[id].operationID;
            var j' := Apply(j, Complete(id, digest, size, ready, now));
            k in j.operations && Only(j, j', k) &&
            var op, next := j.operations[k].payload, j'.operations[k].payload;
            && |op.attempts| == |next.attempts| == 6 && op.status == Executing
            && next.attempts[5].kind == op.attempts[5].kind && next.attempts[5].Complete()
            && next == op.(attempts := op.attempts[5 := next.attempts[5]], updatedAt := now)
  {
    hide ValidateReady;
  }

  lemma CompleteMove(j: Journal, id: ID, digest: string, size: int, ready: ReadyEvidence, now: Time)
    requires Consistent(j) && ShapesOK(j) && id in j.backups
    requires Commit(j, Complete(id, digest, size, ready, now)).Ok?
    ensures var k := j.backups[id].operationID;
            var j' := Apply(j, Complete(id, digest, size, ready, now));
            k in j.operations && Only(j, j', k) && j.operations[k].intentID in j.intents &&
            Shape(j'.operations[k].payload, j.intents[j.operations[k].intentID])
  {
    hide Consistent, ShapesOK, StepsOK, Shape, Commit, DistinctSteps;
    BackupFacts(j, id);
    NamedByKey(j);
    var k := j.backups[id].operationID;
    ShapeOf(j, k);
    CompletedRow(j, id, digest, size, ready, now);
    CompletedShape(j.operations[k].payload,
                   Apply(j, Complete(id, digest, size, ready, now)).operations[k].payload.attempts[5],
                   j.intents[j.operations[k].intentID], now);
  }

  // ---- Coordinators ------------------------------------------------------------------

  predicate Holder(pc: Pc) {
    pc.Dispatching? || pc.AwaitingStop? || pc.Recording? || pc.RecordingOther? || pc.RecordingUnattributed? ||
      pc.Creating?
  }

  function HeldStep(pc: Pc): nat
    requires Holder(pc)
  {
    FrameOf(pc).value.n
  }

  ghost predicate Started(j: Journal, k: ID) {
    k in j.operations && j.operations[k].payload.status != Queued
  }

  ghost predicate Promoted(j: Journal, k: ID) {
    Started(j, k) && j.operations[k].payload.status != Preparing
  }

  /** A status read earlier still says how far the operation has come. */
  ghost predicate Read(j: Journal, k: ID, op: Operation) {
    && (op.status != Queued ==> Started(j, k))
    && (op.status != Queued && op.status != Preparing ==> Promoted(j, k))
  }

  ghost predicate Aware(j: Journal, co: Coordinator) {
    && (co.pc.Loaded? ==> Read(j, co.operationID, co.pc.op))
    && (co.pc.Loop? || co.pc.PreparingStep? || FrameOf(co.pc).Some? ==> Started(j, co.operationID))
    && (co.pc.PreparingStep? ==> Read(j, co.operationID, co.pc.op) && co.pc.op.status != Queued)
    && (co.pc.Chosen? ==> Read(j, co.operationID, co.pc.f.op) && co.pc.f.op.status != Queued)
    && ((co.pc.Checking? || co.pc.Marking?) && FrameOf(co.pc).value.n == 3 ==> Promoted(j, co.operationID))
    && (co.pc.Recording? ==> co.pc.f.n <= 4)
    && (co.pc.AwaitingStop? || co.pc.RecordingUnattributed? || co.pc.RecordingOther? ==> FrameOf(co.pc).value.n == 3)
    && (co.pc.Creating? ==> co.pc.f.n == 5 && co.pc.r.operationID == co.operationID)
    && (Creator(co.pc) ==> Reserved(j, co.pc.r.backupID, co.operationID))
  }

  /** Past its reservation, a Create owns the backup record. */
  predicate Creator(pc: Pc) {
    pc.Creating? && !pc.phase.CheckFirst? && !pc.phase.Reserving?
  }

  ghost predicate Reserved(j: Journal, b: ID, k: ID) {
    b in j.backups && j.backups[b].operationID == k
  }

  ghost predicate AllAware(s: System) {
    forall c :: c in s.coordinators ==> Aware(s.j, s.coordinators[c])
  }

  ghost predicate HoldersOK(s: System) {
    && (forall c | c in s.coordinators && Holder(s.coordinators[c].pc) ::
          s.coordinators[c].operationID in s.j.operations &&
          Held(s.j.operations[s.coordinators[c].operationID].payload, HeldStep(s.coordinators[c].pc)))
    && (forall c, d | c in s.coordinators && d in s.coordinators && c != d &&
                      Holder(s.coordinators[c].pc) && Holder(s.coordinators[d].pc) ::
          s.coordinators[c].operationID != s.coordinators[d].operationID)
  }

  ghost predicate Orderly(s: System) {
    Safe(s) && ShapesOK(s.j) && AllAware(s) && HoldersOK(s)
  }

  lemma AwarenessSurvives(j: Journal, j': Journal, co: Coordinator)
    requires OperationsEvolve(j.operations, j'.operations) && BackupsEvolve(j.backups, j'.backups) && Aware(j, co)
    ensures Aware(j', co)
  {
    if Creator(co.pc) {
      assert BackupEvolves(j.backups[co.pc.r.backupID], j'.backups[co.pc.r.backupID]);
    }
    if co.operationID in j.operations {
      assert OperationEvolves(j.operations[co.operationID].payload, j'.operations[co.operationID].payload);
    }
  }

  lemma BackupsEvolveOf(j: Journal, j': Journal)
    requires Evolves(j, j')
    ensures BackupsEvolve(j.backups, j'.backups)
  {
  }

  /** Coordinator c moved; its operation k may have changed, and the others kept their holds. */
  ghost predicate Advance(s: System, s': System, c: ID) {
    && c in s.coordinators && c in s'.coordinators
    && s'.coordinators == s.coordinators[c := s'.coordinators[c]]
    && s'.coordinators[c].operationID == s.coordinators[c].operationID
    && StepGood(s.j, s'.j) && Aware(s'.j, s'.coordinators[c])
    && var k := s.coordinators[c].operationID;
    && Only(s.j, s'.j, k)
    && (k in s.j.operations ==>
          && s.j.operations[k].intentID in s.j.intents
          && Shape(s'.j.operations[k].payload, s.j.intents[s.j.operations[k].intentID]))
    && (Holder(s'.coordinators[c].pc) ==>
          k in s'.j.operations && Held(s'.j.operations[k].payload, HeldStep(s'.coordinators[c].pc)))
    && (|| Holder(s.coordinators[c].pc)
        || (!Holder(s'.coordinators[c].pc) && k !in s.j.operations)
        || (!Holder(s'.coordinators[c].pc) && KeepsHolds(s.j.operations[k].payload, s'.j.operations[k].payload))
        || (k in s.j.operations && forall m: nat :: !Held(s.j.operations[k].payload, m)))
  }

  lemma AdvanceKeepsHolders(s: System, s': System, c: ID)
    requires HoldersOK(s) && Advance(s, s', c)
    ensures HoldersOK(s')
  {
    hide StepGood, Aware, Shape, Held, KeepsHolds;
    var k := s.coordinators[c].operationID;
    forall d | d in s'.coordinators && Holder(s'.coordinators[d].pc) && d != c
      ensures s'.coordinators[d].operationID in s'.j.operations &&
              Held(s'.j.operations[s'.coordinators[d].operationID].payload, HeldStep(s'.coordinators[d].pc))
      ensures Holder(s'.coordinators[c].pc) ==> s'.coordinators[d].operationID != k
    {
      assert s'.coordinators[d] == s.coordinators[d] && d in s.coordinators;
      if s.coordinators[d].operationID == k {
        assert Held(s.j.operations[k].payload, HeldStep(s.coordinators[d].pc));
        KeepsHoldAt(s.j.operations[k].payload, s'.j.operations[k].payload, HeldStep(s.coordinators[d].pc));
      }
    }
  }

  lemma KeepsHoldAt(op: Operation, next: Operation, n: nat)
    ensures KeepsHolds(op, next) && Held(op, n) ==> Held(next, n)
  {
  }

  lemma AdvanceKeepsShapes(s: System, s': System, c: ID)
    requires ShapesOK(s.j) && Consistent(s.j) && Advance(s, s', c)
    ensures ShapesOK(s'.j)
  {
    hide Consistent, Aware, Shape, Held, KeepsHolds, Holder;
    forall m | m in s'.j.operations
      ensures s'.j.operations[m].intentID in s'.j.intents &&
              Shape(s'.j.operations[m].payload, s'.j.intents[s'.j.operations[m].intentID])
    {
      LoadedSurvives(s.j, s'.j, m);
    }
  }

  lemma AdvanceIsOrderly(s: System, s': System, c: ID)
    requires Orderly(s) && Safe(s') && Advance(s, s', c)
    ensures Orderly(s')
  {
    hide Safe, ShapesOK, HoldersOK, Aware, Consistent, Advance;
    ConsistentOf(s);
    AdvanceKeepsShapes(s, s', c);
    AdvanceKeepsHolders(s, s', c);
    AdvanceKeepsAwareness(s, s', c);
  }

  lemma AdvanceKeepsAwareness(s: System, s': System, c: ID)
    requires AllAware(s) && Advance(s, s', c)
    ensures AllAware(s')
  {
    hide Consistent, Shape, Held, KeepsHolds, Holder, Aware, OperationsEvolve, BackupsEvolve;
    OperationsEvolveOf(s.j, s'.j);
    BackupsEvolveOf(s.j, s'.j);
    forall d | d in s'.coordinators ensures Aware(s'.j, s'.coordinators[d]) {
      if d != c { AwarenessSurvives(s.j, s'.j, s.coordinators[d]); }
    }
  }

  // ---- Each step advances -----------------------------------------------------------

  /** A step that leaves operations and intents alone, and starts no hold. */
  lemma IdleAdvance(s: System, s': System, c: ID)
    requires Orderly(s) && c in s.coordinators && c in s'.coordinators
    requires s'.coordinators == Goto(s, c, s'.coordinators[c].pc).coordinators
    requires s'.j.operations == s.j.operations && s'.j.intents == s.j.intents && StepGood(s.j, s'.j)
    requires Aware(s'.j, s'.coordinators[c])
    requires Holder(s'.coordinators[c].pc) ==>
               Holder(s.coordinators[c].pc) && HeldStep(s'.coordinators[c].pc) == HeldStep(s.coordinators[c].pc)
    ensures Advance(s, s', c)
  {
    hide Safe, Consistent, StepGood, Shape, Held, Holder, HeldStep, KeepsHolds, Aware;
    var k := s.coordinators[c].operationID;
    if k in s.j.operations { HoldsKept(s.j.operations[k].payload); }
  }

  /** A store call that is good for the operation whoever holds it. */
  lemma MoveAdvance(s: System, c: ID, call: Call, lost: bool, ok: Pc, failed: Pc)
    requires Orderly(s) && c in s.coordinators && !Holder(ok) && !Holder(failed)
    requires GoodMove(s.j, Apply(s.j, call), s.coordinators[c].operationID)
    requires Aware(Apply(s.j, call), s.coordinators[c].(pc := failed))
    requires Commit(s.j, call).Ok? ==> Aware(Apply(s.j, call), s.coordinators[c].(pc := ok))
    ensures Advance(s, Perform(s, c, call, lost, ok, failed), c)
  {
    hide Safe, Consistent, StepGood, Shape, Held, HeldStep, KeepsHolds, Aware, Commit, ShapesOK, AllAware, HoldersOK,
      Holder;
    ConsistentOf(s);
    CallGood(s.j, call);
  }

  lemma NothingToKnow(j: Journal, co: Coordinator)
    requires co.pc.Halted? || co.pc.MarkingUnknown? || co.pc.Start? || co.pc.Inspecting? || co.pc.Finished?
    ensures Aware(j, co) && !Holder(co.pc)
  {
  }

  lemma AwarenessOf(s: System, c: ID)
    requires Orderly(s) && c in s.coordinators
    ensures Aware(s.j, s.coordinators[c]) && Knows(s.j, s.coordinators[c]) && Consistent(s.j) && ShapesOK(s.j)
  {
    hide Knows, Consistent, ShapesOK, Aware;
  }

  /** A step that only reads or touches files, with what its coordinator may conclude. */
  ghost predicate Idle(s: System, s': System, c: ID) {
    && c in s.coordinators && c in s'.coordinators && s'.j == s.j
    && s'.coordinators == Goto(s, c, s'.coordinators[c].pc).coordinators
    && (Aware(s.j, s.coordinators[c]) ==> Aware(s.j, s'.coordinators[c]))
    && (Holder(s'.coordinators[c].pc) ==>
          Holder(s.coordinators[c].pc) && HeldStep(s'.coordinators[c].pc) == HeldStep(s.coordinators[c].pc))
  }

  lemma IdleAdvances(s: System, s': System, c: ID)
    requires Orderly(s) && Idle(s, s', c)
    ensures Advance(s, s', c)
  {
    hide Orderly, Knows, Consistent, StepGood, ShapesOK, Advance, Aware, Holder, HeldStep;
    AwarenessOf(s, c);
    UnchangedIsGood(s.j);
    IdleAdvance(s, s', c);
  }

  lemma StartAdvances(s: System, c: ID, o: Oracle)
    requires Orderly(s) && c in s.coordinators && (s.coordinators[c].pc.Start? || s.coordinators[c].pc.Loaded?)
    ensures Advance(s, TickStep(s, c, o), c)
  {
    hide Orderly, Knows, Consistent, StepGood, ShapesOK, Advance, CanContinue, Reserved, LoopHead, PrepareNext,
      CheckStep, DispatchStep, StopStep, AfterFailedCreate, CreateStep, InspectStep, Perform;
    AwarenessOf(s, c);
    UnchangedIsGood(s.j);
    IdleAdvance(s, TickStep(s, c, o), c);
  }

  lemma LoopHeadIsIdle(s: System, c: ID)
    requires c in s.coordinators && s.coordinators[c].pc.Loop?
    ensures Idle(s, LoopHead(s, c, s.coordinators[c].pc.i, s.coordinators[c].pc.n), c)
  {
    hide Reserved;
  }

  lemma LoopIsIdle(s: System, c: ID, o: Oracle)
    requires c in s.coordinators && s.coordinators[c].pc.Loop?
    ensures Idle(s, TickStep(s, c, o), c)
  {
    hide Idle, LoopHead, PrepareNext, CheckStep, DispatchStep, StopStep, AfterFailedCreate, CreateStep, InspectStep,
      Perform;
    LoopHeadIsIdle(s, c);
  }

  lemma ObservationIsIdle(s: System, c: ID, o: Oracle)
    requires c in s.coordinators
    requires var pc := s.coordinators[c].pc; pc.Checking? || pc.AwaitingStop? || pc.CreateFailed?
    ensures Idle(s, TickStep(s, c, o), c)
  {
    hide Reserved, Started, Promoted, FreshEvidence, Offline, ValidateSafety, JudgeStop, SafeBefore, LoopHead,
      PrepareNext, DispatchStep, CreateStep, InspectStep, Perform;
  }

  lemma DispatchAdvances(s: System, c: ID, o: Oracle)
    requires Orderly(s) && c in s.coordinators && s.coordinators[c].pc.Dispatching?
    ensures Advance(s, TickStep(s, c, o), c)
  {
    hide Orderly, Knows, Consistent, StepGood, ShapesOK, MaintenanceConfirmed, LoopHead, PrepareNext, CheckStep,
      StopStep, AfterFailedCreate, CreateStep, InspectStep, Perform;
    AwarenessOf(s, c);
    FrameIsBounded(s.j, s.coordinators[c]);
    UnchangedIsGood(s.j);
    IdleAdvance(s, TickStep(s, c, o), c);
  }

  lemma PromotedBy(j: Journal, k: ID, to: OperationStatus, now: Time)
    requires TransitionOperation(j, k, to, NotStarted, false, now).Ok? && Named(j)
    ensures to == Preparing ==> Started(TransitionOperation(j, k, to, NotStarted, false, now).value, k)
    ensures to == Executing ==> Promoted(TransitionOperation(j, k, to, NotStarted, false, now).value, k)
  {
  }

  lemma ClaimAdvances(s: System, c: ID, o: Oracle)
    requires Orderly(s) && c in s.coordinators && s.coordinators[c].pc.Claiming?
    ensures Advance(s, TickStep(s, c, o), c)
  {
    hide Orderly, Knows, Consistent, StepGood, ShapesOK, TransitionOperation, Advance, GoodMove, LoopHead,
      PrepareNext, CheckStep, DispatchStep, StopStep, AfterFailedCreate, CreateStep, InspectStep, Perform;
    var co := s.coordinators[c];
    AwarenessOf(s, c);
    NamedByKey(s.j);
    var call := Transition(co.operationID, Preparing, NotStarted, false, o.now);
    TransitionMove(s.j, co.operationID, Preparing, o.now);
    if Commit(s.j, call).Ok? { PromotedBy(s.j, co.operationID, Preparing, o.now); }
    MoveAdvance(s, c, call, o.lost, Loop(co.pc.i, 0), Halted);
  }

  lemma ChosenAdvances(s: System, c: ID, o: Oracle)
    requires Orderly(s) && c in s.coordinators && s.coordinators[c].pc.Chosen?
    ensures Advance(s, TickStep(s, c, o), c)
  {
    hide Orderly, Knows, Consistent, StepGood, ShapesOK, TransitionOperation, Advance, GoodMove, LoopHead,
      PrepareNext, CheckStep, DispatchStep, StopStep, AfterFailedCreate, CreateStep, InspectStep, Perform;
    var co := s.coordinators[c];
    var f := co.pc.f;
    AwarenessOf(s, c);
    NamedByKey(s.j);
    if f.n == 3 && f.op.status == Preparing {
      var call := Transition(co.operationID, Executing, NotStarted, false, o.now);
      TransitionMove(s.j, co.operationID, Executing, o.now);
      if Commit(s.j, call).Ok? { PromotedBy(s.j, co.operationID, Executing, o.now); }
      MoveAdvance(s, c, call, o.lost, Checking(f), Halted);
    } else {
      ChosenChecks(s, c, o);
    }
  }

  lemma ChosenChecks(s: System, c: ID, o: Oracle)
    requires Orderly(s) && c in s.coordinators && s.coordinators[c].pc.Chosen?
    requires s.coordinators[c].pc.f.n != 3 || s.coordinators[c].pc.f.op.status != Preparing
    ensures Advance(s, TickStep(s, c, o), c)
  {
    hide Orderly, Knows, Consistent, StepGood, ShapesOK, Advance, LoopHead, PrepareNext, CheckStep, DispatchStep,
      StopStep, AfterFailedCreate, CreateStep, InspectStep, Perform;
    AwarenessOf(s, c);
    UnchangedIsGood(s.j);
    IdleAdvance(s, TickStep(s, c, o), c);
  }

  lemma PrepareAdvances(s: System, c: ID, o: Oracle)
    requires Orderly(s) && c in s.coordinators && s.coordinators[c].pc.PreparingStep?
    ensures Advance(s, TickStep(s, c, o), c)
  {
    hide Orderly, Consistent, StepGood, ShapesOK, PrepareStep, Advance, GoodMove, At, LoopHead, CheckStep,
      DispatchStep, StopStep, AfterFailedCreate, CreateStep, InspectStep, Perform;
    var co := s.coordinators[c];
    AwarenessOf(s, c);
    var PreparingStep(i, op, n) := co.pc;
    var call := Prepare(co.operationID, FIXED_STEPS[n], o.now, o.freshID);
    PrepareMove(s.j, co.operationID, i, n, o.now, o.freshID);
    var ok := if Commit(s.j, call).Ok?
              then Chosen(Frame(i, op, n,
                                PrepareStep(s.j, co.operationID, FIXED_STEPS[n], o.now, o.freshID).value.1))
              else Halted;
    PreparedAwareness(s, c, o, ok);
    MoveAdvance(s, c, call, o.lost, ok, Halted);
    PerformIsPrepare(s, c, o, ok);
  }

  lemma PreparedAwareness(s: System, c: ID, o: Oracle, ok: Pc)
    requires Consistent(s.j) && c in s.coordinators && s.coordinators[c].pc.PreparingStep? &&
             s.coordinators[c].pc.n <= 5
    requires Aware(s.j, s.coordinators[c])
    requires ok.Halted? || (ok.Chosen? && ok.f.op == s.coordinators[c].pc.op)
    ensures Aware(Apply(s.j,
                        Prepare(s.coordinators[c].operationID, FIXED_STEPS[s.coordinators[c].pc.n], o.now, o.freshID)),
                  s.coordinators[c].(pc := ok))
  {
    hide Consistent, PrepareStep, Evolves, OperationsEvolve;
    var co := s.coordinators[c];
    var call := Prepare(co.operationID, FIXED_STEPS[co.pc.n], o.now, o.freshID);
    CallGood(s.j, call);
    OperationsEvolveOf(s.j, Apply(s.j, call));
    BackupsEvolveOf(s.j, Apply(s.j, call));
    AwarenessSurvives(s.j, Apply(s.j, call), co);
  }

  lemma PerformIsPrepare(s: System, c: ID, o: Oracle, ok: Pc)
    requires c in s.coordinators && s.coordinators[c].pc.PreparingStep? && s.coordinators[c].pc.n <= 5
    requires var co := s.coordinators[c];
             var t := PrepareStep(s.j, co.operationID, FIXED_STEPS[co.pc.n], o.now, o.freshID);
             t.Ok? ==> ok == Chosen(Frame(co.pc.i, co.pc.op, co.pc.n, t.value.1))
    ensures TickStep(s, c, o) ==
            Perform(s, c, Prepare(s.coordinators[c].operationID, FIXED_STEPS[s.coordinators[c].pc.n], o.now, o.freshID),
                    o.lost, ok, Halted)
  {
    hide PrepareStep, LoopHead, CheckStep, DispatchStep, StopStep, AfterFailedCreate, CreateStep, InspectStep;
  }

  lemma UnresolvedAdvances(s: System, c: ID, o: Oracle)
    requires Orderly(s) && c in s.coordinators
    requires var pc := s.coordinators[c].pc; pc.GivingUp? || pc.MarkingUnknown? || pc.RecordingOther?
    ensures Advance(s, TickStep(s, c, o), c)
  {
    hide Orderly, Knows, Consistent, StepGood, ShapesOK, Advance, GoodMove, Commit, Apply, Aware, Texts, LoopHead,
      PrepareNext, CheckStep, DispatchStep, StopStep, AfterFailedCreate, CreateStep, InspectStep, Perform;
    var co := s.coordinators[c];
    var k := co.operationID;
    AwarenessOf(s, c);
    var call := match co.pc
      case GivingUp(f) => Record(k, f.a.stepID, EffectUnknown, Unattributed, [Text("reason")], o.now)
      case RecordingOther(f, attribution, references) =>
        Record(k, f.a.stepID, OtherObserved, attribution, Texts(references), o.now)
      case _ => MarkUnresolved(k, o.now);
    if call.Record? {
      UnresolvedMove(s.j, k, call.stepID, call.effect, call.attribution, call.evidence, o.now);
    } else {
      MarkUnresolvedMove(s.j, k, o.now);
    }
    NothingToKnow(Apply(s.j, call), co.(pc := Halted));
    MoveAdvance(s, c, call, o.lost, Halted, Halted);
  }

  /** The step of a holder, or of one that takes an operation nobody held. */
  lemma HolderAdvance(s: System, s': System, c: ID)
    requires Orderly(s) && c in s.coordinators && c in s'.coordinators && StepGood(s.j, s'.j)
    requires s'.coordinators == Goto(s, c, s'.coordinators[c].pc).coordinators && Aware(s'.j, s'.coordinators[c])
    requires var k := s.coordinators[c].operationID;
             && Only(s.j, s'.j, k) && k in s.j.operations && s.j.operations[k].intentID in s.j.intents
             && Shape(s'.j.operations[k].payload, s.j.intents[s.j.operations[k].intentID])
             && (Holder(s.coordinators[c].pc) || forall m: nat :: !Held(s.j.operations[k].payload, m))
             && (Holder(s'.coordinators[c].pc) ==>
                   k in s'.j.operations && Held(s'.j.operations[k].payload, HeldStep(s'.coordinators[c].pc)))
    ensures Advance(s, s', c)
  {
    hide Orderly, StepGood, Aware, Shape, Held, Holder, HeldStep;
  }

  lemma HoldOf(s: System, c: ID)
    requires Orderly(s) && c in s.coordinators && Holder(s.coordinators[c].pc)
    ensures s.coordinators[c].operationID in s.j.operations
    ensures Held(s.j.operations[s.coordinators[c].operationID].payload, HeldStep(s.coordinators[c].pc))
  {
    hide Safe, ShapesOK, AllAware, Held;
  }

  lemma MarkAdvances(s: System, c: ID, o: Oracle)
    requires Orderly(s) && c in s.coordinators && s.coordinators[c].pc.Marking?
    ensures Advance(s, TickStep(s, c, o), c)
  {
    hide Orderly, Consistent, StepGood, ShapesOK, Commit, Shape, Held, Bound, At, Advance, Only, Reserved, LoopHead,
      PrepareNext, CheckStep, DispatchStep, StopStep, AfterFailedCreate, CreateStep, InspectStep;
    var co := s.coordinators[c];
    var k, f := co.operationID, co.pc.f;
    AwarenessOf(s, c);
    var call := MarkPossible(k, f.a.stepID, o.now);
    CallGood(s.j, call);
    if Commit(s.j, call).Ok? {
      MarkMove(s.j, k, f.n, f.a.stepID, o.now);
      StartedSurvives(s.j, Apply(s.j, call), k);
      HolderAdvance(s, TickStep(s, c, o), c);
    } else {
      IdleAdvance(s, TickStep(s, c, o), c);
    }
  }

  lemma StartedSurvives(j: Journal, j': Journal, k: ID)
    requires StepGood(j, j') && Started(j, k)
    ensures Started(j', k)
  {
    hide Consistent;
    assert OperationEvolves(j.operations[k].payload, j'.operations[k].payload);
  }

  lemma RecordAdvances(s: System, c: ID, o: Oracle)
    requires Orderly(s) && c in s.coordinators
    requires s.coordinators[c].pc.Recording? || s.coordinators[c].pc.RecordingUnattributed?
    ensures Advance(s, TickStep(s, c, o), c)
  {
    hide Orderly, Consistent, StepGood, ShapesOK, Commit, Shape, Held, Bound, At, Advance, Only, Texts, LoopHead,
      PrepareNext, CheckStep, DispatchStep, StopStep, AfterFailedCreate, CreateStep, InspectStep;
    var co := s.coordinators[c];
    var k, f := co.operationID, FrameOf(co.pc).value;
    AwarenessOf(s, c);
    HoldOf(s, c);
    var call := if co.pc.Recording? then Record(k, f.a.stepID, ExpectedObserved, Correlated, [co.pc.evidence], o.now)
                else Record(k, f.a.stepID, ExpectedObserved, Unattributed, Texts(co.pc.references), o.now);
    CallGood(s.j, call);
    RecordMove(s.j, k, f.n, f.a.stepID, call.attribution, call.evidence, o.now);
    StartedSurvives(s.j, Apply(s.j, call), k);
    HolderAdvance(s, TickStep(s, c, o), c);
  }

  lemma BackupCallTouchesNoOperation(j: Journal, call: Call)
    requires call.Reserve? || call.MoveBackup?
    ensures Apply(j, call).operations == j.operations && Apply(j, call).intents == j.intents
    ensures call.Reserve? && Commit(j, call).Ok? ==>
              Reserved(Apply(j, call), call.backup.backupID, call.backup.operationID)
  {
    hide ValidateReady, MatchesIntent;
  }

  lemma BackupCallAdvances(s: System, c: ID, call: Call, lost: bool, ok: Pc, failed: Pc)
    requires Orderly(s) && c in s.coordinators && (call.Reserve? || call.MoveBackup?)
    requires Aware(Apply(s.j, call), s.coordinators[c].(pc := failed)) && !Holder(failed)
    requires Commit(s.j, call).Ok? ==> Aware(Apply(s.j, call), s.coordinators[c].(pc := ok))
    requires Holder(ok) ==> Holder(s.coordinators[c].pc) && HeldStep(ok) == HeldStep(s.coordinators[c].pc)
    ensures Advance(s, Perform(s, c, call, lost, ok, failed), c)
  {
    hide Orderly, Consistent, StepGood, Commit, Aware, Holder, HeldStep, Advance;
    assert Consistent(s.j) by { AwarenessOf(s, c); }
    CallGood(s.j, call);
    BackupCallTouchesNoOperation(s.j, call);
    IdleAdvance(s, Perform(s, c, call, lost, ok, failed), c);
  }

  lemma CreateInStoreAdvances(s: System, c: ID, o: Oracle)
    requires Orderly(s) && c in s.coordinators && s.coordinators[c].pc.Creating?
    requires StoresPhase(s.coordinators[c].pc.phase) && !s.coordinators[c].pc.phase.Completing?
    ensures Advance(s, TickStep(s, c, o), c)
  {
    hide Orderly, Consistent, Evolves, Knows, ShapesOK, Commit, Advance, Reserved, Started, OperationsEvolve,
      BackupsEvolve, LoopHead, PrepareNext, CheckStep, DispatchStep, StopStep, AfterFailedCreate, InspectStep,
      Perform;
    var co := s.coordinators[c];
    AwarenessOf(s, c);
    var Creating(f, r, phase) := co.pc;
    var call := match phase
      case Reserving => Reserve(r, o.now)
      case ToWriting => MoveBackup(r.backupID, BackupWriting)
      case ToFinalizing(_) => MoveBackup(r.backupID, BackupFinalizing)
      case _ => MoveBackup(r.backupID, BackupVerifying);
    var ok := match phase
      case Reserving => Creating(f, r, ToWriting)
      case ToWriting => Creating(f, r, Opening)
      case ToFinalizing(w) => Creating(f, r, Renaming(w))
      case ToVerifying(w) => Creating(f, r, Rereading(w))
      case _ => CreateFailed(f);
    CallGood(s.j, call);
    BackupCallTouchesNoOperation(s.j, call);
    OperationsEvolveOf(s.j, Apply(s.j, call));
    BackupsEvolveOf(s.j, Apply(s.j, call));
    AwarenessSurvives(s.j, Apply(s.j, call), co);
    BackupCallAdvances(s, c, call, o.lost, ok, CreateFailed(f));
  }

  lemma CreateOnDiskIsIdle(s: System, c: ID, o: Oracle)
    requires c in s.coordinators
    requires var pc := s.coordinators[c].pc; pc.Creating? && !StoresPhase(pc.phase)
    ensures Idle(s, TickStep(s, c, o), c)
  {
    hide Reserved, Started, Promoted, Offline, Commit, LoopHead, PrepareNext, CheckStep, DispatchStep, StopStep,
      AfterFailedCreate, InspectStep, Perform;
  }

  lemma CompletionAdvances(s: System, c: ID, o: Oracle)
    requires Orderly(s) && c in s.coordinators && s.coordinators[c].pc.Creating? &&
             s.coordinators[c].pc.phase.Completing?
    ensures Advance(s, TickStep(s, c, o), c)
  {
    hide Orderly, Consistent, StepGood, ShapesOK, Commit, Knows, Shape, Held, Advance, Only, Offline, LoopHead,
      PrepareNext, CheckStep, DispatchStep, StopStep, AfterFailedCreate, InspectStep, Perform;
    var co := s.coordinators[c];
    AwarenessOf(s, c);
    var Creating(f, r, phase) := co.pc;
    var call := Complete(r.backupID, phase.digest, phase.size, phase.ready, o.now);
    CallGood(s.j, call);
    if Commit(s.j, call).Ok? {
      CompleteMove(s.j, r.backupID, phase.digest, phase.size, phase.ready, o.now);
      StartedSurvives(s.j, Apply(s.j, call), co.operationID);
      HolderAdvance(s, TickStep(s, c, o), c);
    } else {
      IdleAdvance(s, TickStep(s, c, o), c);
    }
  }

  lemma InspectAdvances(s: System, c: ID, o: Oracle)
    requires Orderly(s) && c in s.coordinators && s.coordinators[c].pc.Inspecting?
    ensures Advance(s, TickStep(s, c, o), c)
  {
    hide Orderly, Knows, Consistent, StepGood, ShapesOK, ValidateCompleted, Commit, Apply, Advance, Aware, Holder,
      LoopHead, PrepareNext, CheckStep, DispatchStep, StopStep, AfterFailedCreate, CreateStep, Perform;
    AwarenessOf(s, c);
    UnchangedIsGood(s.j);
    var Inspecting(purpose, id, stage) := s.coordinators[c].pc;
    if stage.Orphaning? {
      var call := MoveBackup(id, BackupOrphaned);
      NothingToKnow(Apply(s.j, call), s.coordinators[c].(pc := Halted));
      BackupCallAdvances(s, c, call, o.lost, Halted, Halted);
    } else {
      NothingToKnow(s.j, TickStep(s, c, o).coordinators[c]);
      IdleAdvance(s, TickStep(s, c, o), c);
    }
  }

  lemma TickAdvances(s: System, c: ID, o: Oracle)
    requires Orderly(s) && c in s.coordinators && Live(s.coordinators[c].pc)
    ensures Advance(s, TickStep(s, c, o), c)
  {
    hide Orderly, Advance, Idle, TickStep, StoresPhase;
    var pc := s.coordinators[c].pc;
    if pc.Start? || pc.Loaded? { StartAdvances(s, c, o); }
    else if pc.Loop? { LoopIsIdle(s, c, o); IdleAdvances(s, TickStep(s, c, o), c); }
    else if pc.Claiming? { ClaimAdvances(s, c, o); }
    else if pc.PreparingStep? { PrepareAdvances(s, c, o); }
    else if pc.Chosen? { ChosenAdvances(s, c, o); }
    else if pc.Checking? || pc.AwaitingStop? || pc.CreateFailed? {
      ObservationIsIdle(s, c, o);
      IdleAdvances(s, TickStep(s, c, o), c);
    }
    else if pc.Marking? { MarkAdvances(s, c, o); }
    else if pc.Dispatching? { DispatchAdvances(s, c, o); }
    else if pc.Recording? || pc.RecordingUnattributed? { RecordAdvances(s, c, o); }
    else if pc.Inspecting? { InspectAdvances(s, c, o); }
    else if pc.Creating? {
      if pc.phase.Completing? { CompletionAdvances(s, c, o); }
      else if StoresPhase(pc.phase) { CreateInStoreAdvances(s, c, o); }
      else { CreateOnDiskIsIdle(s, c, o); IdleAdvances(s, TickStep(s, c, o), c); }
    }
    else { UnresolvedAdvances(s, c, o); }
  }

  lemma TickIsOrderly(s: System, c: ID, o: Oracle)
    requires Orderly(s) && c in s.coordinators
    ensures Orderly(TickStep(s, c, o))
  {
    assert Safe(s);
    hide Orderly, Safe, Advance, TickStep;
    if Live(s.coordinators[c].pc) {
      TickIsSafe(s, c, o);
      TickAdvances(s, c, o);
      AdvanceIsOrderly(s, TickStep(s, c, o), c);
    } else {
      StoppedStays(s, c, o);
    }
  }

  // ---- Everyone else ------------------------------------------------------------------

  lemma SpawnIsOrderly(s: System, c: ID, co: Coordinator)
    requires Orderly(s) && (co.pc.Start? || co.pc.Halted? || (co.pc.Inspecting? && co.pc.purpose.Standalone?))
    ensures Orderly(s.(coordinators := s.coordinators[c := co]))
  {
    hide Safe, ShapesOK, Aware, Held;
    SpawnIsQuiet(s, c, co);
    QuietIsSafe(s, s.(coordinators := s.coordinators[c := co]), c);
    NothingToKnow(s.j, co);
  }

  /** What an operator can do to an operation that may be held: nothing. */
  ghost predicate OperatorStep(j: Journal, j': Journal) {
    && (forall k :: k in j.operations ==>
                      k in j'.operations && OperatorMove(j.operations[k].payload, j'.operations[k].payload))
    && (forall k :: k in j'.operations && k !in j.operations ==> Fresh(j'.operations[k].payload))
  }

  predicate OperatorMove(op: Operation, next: Operation) {
    || next == op
    || (op.status == Queued && op.attempts == [] &&
        next == op.(status := Aborted, released := true, updatedAt := next.updatedAt))
  }

  predicate Fresh(op: Operation) {
    op.status == Queued && op.attempts == [] && op.verification == NotStarted && !op.released
  }

  lemma OperatorsAreRestrained(j: Journal, call: Call)
    requires Named(j) && OperatorCall(call)
    ensures OperatorStep(j, Apply(j, call))
  {
    hide ActiveOwner, UpdateIntent;
    if call.Revoke? {
      RevokersAreRestrained(j, call);
    } else {
      hide RevokeIntent;
    }
  }

  lemma RevokersAreRestrained(j: Journal, call: Call)
    requires Named(j) && call.Revoke?
    ensures OperatorStep(j, Apply(j, call))
  {
    hide ActiveOwner, UpdateIntent, ApproveIntent, RejectIntent;
  }

  lemma OperatorShape(op: Operation, next: Operation, intent: IntentRow, intent': IntentRow)
    requires Shape(op, intent) && OperatorMove(op, next) && intent'.payload.intent == intent.payload.intent
    ensures Shape(next, intent') && KeepsHolds(op, next)
  {
  }

  lemma FreshShape(op: Operation, intent: IntentRow)
    requires Fresh(op)
    ensures Shape(op, intent)
  {
  }

  lemma OperatorKeepsShapes(j: Journal, j': Journal)
    requires Consistent(j) && StepGood(j, j') && ShapesOK(j) && OperatorStep(j, j')
    ensures ShapesOK(j')
  {
    hide Consistent, Shape, OperatorMove, Fresh;
    forall k | k in j'.operations
      ensures j'.operations[k].intentID in j'.intents &&
              Shape(j'.operations[k].payload, j'.intents[j'.operations[k].intentID])
    {
      OperationFacts(j', k);
      if k in j.operations {
        LoadedSurvives(j, j', k);
        var i := j.operations[k].intentID;
        assert IntentEvolves(j.intents[i], j'.intents[i]);
        OperatorShape(j.operations[k].payload, j'.operations[k].payload, j.intents[i], j'.intents[i]);
      } else {
        FreshShape(j'.operations[k].payload, j'.intents[j'.operations[k].intentID]);
      }
    }
  }

  lemma ClientIsOrderly(s: System, call: Call)
    requires Orderly(s) && OperatorCall(call)
    ensures Orderly(s.(j := Apply(s.j, call)))
  {
    hide Safe, Consistent, ShapesOK, Evolves, OperationsEvolve, BackupsEvolve, Aware, Held, Apply, OperatorMove,
      OperatorCall;
    var s' := s.(j := Apply(s.j, call));
    ClientIsSafe(s, call);
    ConsistentOf(s);
    CallGood(s.j, call);
    NamedByKey(s.j);
    OperatorsAreRestrained(s.j, call);
    OperatorKeepsShapes(s.j, s'.j);
    OperationsEvolveOf(s.j, s'.j);
    BackupsEvolveOf(s.j, s'.j);
    forall c | c in s'.coordinators ensures Aware(s'.j, s'.coordinators[c]) {
      AwarenessSurvives(s.j, s'.j, s.coordinators[c]);
    }
    forall c | c in s'.coordinators && Holder(s'.coordinators[c].pc)
      ensures Held(s'.j.operations[s'.coordinators[c].operationID].payload, HeldStep(s'.coordinators[c].pc))
    {
      var k := s.coordinators[c].operationID;
      HeldByOperator(s.j.operations[k].payload, s'.j.operations[k].payload, HeldStep(s.coordinators[c].pc));
    }
  }

  lemma HeldByOperator(op: Operation, next: Operation, n: nat)
    requires Held(op, n) && OperatorMove(op, next)
    ensures Held(next, n)
  {
  }

  lemma NextIsOrderly(s: System, action: Action)
    requires Orderly(s) && Internal(action)
    ensures Orderly(Next(s, action))
  {
    hide Orderly, TickStep, Apply;
    match action
    case Spawn(c, operationID, enrollment) =>
      if Free(s, c) { SpawnIsOrderly(s, c, Coordinator(operationID, enrollment, Start)); }
    case SpawnInspect(c, id, enrollment) =>
      if Free(s, c) { SpawnIsOrderly(s, c, Coordinator("", enrollment, Inspecting(Standalone, id, ReadRecord))); }
    case Crash(c) =>
      if c in s.coordinators && Live(s.coordinators[c].pc) { SpawnIsOrderly(s, c, s.coordinators[c].(pc := Halted)); }
    case Tick(c, o) => if c in s.coordinators { TickIsOrderly(s, c, o); }
    case Client(call) => ClientIsOrderly(s, call);
    case Tamper(name, bytes) => FilesKeepOrder(s, Next(s, action));
  }

  lemma FilesKeepOrder(s: System, s': System)
    requires Orderly(s) && s'.j == s.j && s'.coordinators == s.coordinators && s'.dispatched == s.dispatched
    ensures Orderly(s')
  {
    hide Safe, ShapesOK, Aware, Held;
    FilesDoNotMatter(s, s');
  }

  ghost predicate AllInternal(actions: seq<Action>) {
    forall x :: 0 <= x < |actions| ==> Internal(actions[x])
  }

  lemma InitialIsOrderly(digests: Digests)
    ensures Orderly(Initial(digests))
  {
    hide Safe, Shape, Aware;
    InitialIsSafe(digests);
  }

  lemma {:induction false} RunIsOrderly(digests: Digests, actions: seq<Action>)
    requires AllInternal(actions)
    ensures Orderly(Run(Initial(digests), actions))
  {
    hide Orderly, Next, Internal;
    if actions == [] {
      InitialIsOrderly(digests);
    } else {
      RunIsOrderly(digests, actions[..|actions| - 1]);
      NextIsOrderly(Run(Initial(digests), actions[..|actions| - 1]), actions[|actions| - 1]);
    }
  }

  /**
   The attempts of every operation are a prefix of S00-S05, and unless the operation is
   UNKNOWN or NEEDS_INTERVENTION every attempt but the last is acknowledged, expected and correlated.
   */
  lemma AttemptsAreAPrefix(digests: Digests, actions: seq<Action>, k: ID)
    requires AllInternal(actions) && k in Run(Initial(digests), actions).j.operations
    ensures var op := Run(Initial(digests), actions).j.operations[k].payload;
            && |op.attempts| <= 6
            && (forall n :: 0 <= n < |op.attempts| ==> op.attempts[n].kind == FIXED_STEPS[n])
            && (op.status != Unknown && op.status != NeedsIntervention ==>
                  forall n :: 0 <= n < |op.attempts| - 1 ==> op.attempts[n].Complete())
            && (op.released ==> op.attempts == [])
            && op.verification == NotStarted
  {
    RunIsOrderly(digests, actions);
    hide Run, Safe, AllAware, HoldersOK;
    var j := Run(Initial(digests), actions).j;
    assert Shape(j.operations[k].payload, j.intents[j.operations[k].intentID]);
  }
}
