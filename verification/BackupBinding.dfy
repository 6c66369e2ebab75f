/**
 S05 and its backup: the step becomes complete only in the transaction that makes
 its backup VALID, and as long as the operation is not unresolved the two agree.
 */
module BackupBinding {
  import opened Octets
  import opened Domain
  import opened Journal
  import opened JournalSafety
  import opened Workflow
  import opened AtMostOnce
  import opened Progress
  import opened BackupProtocol

  function ReservedFor(j: Journal, k: ID): ID
    requires k in j.operations && j.operations[k].intentID in j.intents
  {
    j.intents[j.operations[k].intentID].payload.intent.reservedBackupID
  }

  predicate BackedUp(op: Operation) {
    |op.attempts| > 5 && op.attempts[5].Complete()
  }

  /** A backup is the one its operation's intent reserved, made by that operation's S05. */
  ghost predicate BelongsToItsStep(j: Journal, b: ID)
    requires b in j.backups
  {
    var k := j.backups[b].operationID;
    && k in j.operations && j.operations[k].intentID in j.intents && ReservedFor(j, k) == b
    && var op := j.operations[k].payload;
    && |op.attempts| > 5 && op.attempts[5].stepID == j.backups[b].payload.stepID
    && (j.backups[b].status == BackupValid ==> BackedUp(op) || Trapped(op))
  }

  ghost predicate HasItsBackup(j: Journal, k: ID)
    requires k in j.operations
  {
    && j.operations[k].intentID in j.intents
    && var b := ReservedFor(j, k);
    && b in j.backups && j.backups[b].operationID == k && j.backups[b].status == BackupValid
  }

  ghost predicate Linked(j: Journal) {
    && (forall b :: b in j.backups ==> BelongsToItsStep(j, b))
    && (forall k :: k in j.operations && BackedUp(j.operations[k].payload) ==> HasItsBackup(j, k))
  }

  // ---- Calls that complete nothing --------------------------------------------------

  predicate SameFifth(op: Operation, next: Operation) {
    && (BackedUp(next) ==> BackedUp(op))
    && (BackedUp(op) ==> BackedUp(next) || Trapped(next))
  }

  ghost predicate NothingBackedUp(j: Journal, j': Journal) {
    forall k :: k in j'.operations ==>
                  if k in j.operations then SameFifth(j.operations[k].payload, j'.operations[k].payload)
                  else j'.operations[k].payload.attempts == []
  }

  ghost predicate NothingValidated(j: Journal, j': Journal) {
    forall b :: b in j'.backups ==>
                  if b in j.backups then j'.backups[b].status == BackupValid <==> j.backups[b].status == BackupValid
                  else BelongsToItsStep(j', b) && j'.backups[b].status != BackupValid
  }

  lemma RowsSurvive(j: Journal, j': Journal, k: ID)
    requires Consistent(j) && StepGood(j, j') && k in j.operations && j.operations[k].intentID in j.intents
    ensures k in j'.operations && j'.operations[k].intentID in j'.intents && ReservedFor(j', k) == ReservedFor(j, k)
    ensures OperationEvolves(j.operations[k].payload, j'.operations[k].payload)
  {
    hide Consistent;
    LoadedSurvives(j, j', k);
    assert IntentEvolves(j.intents[j.operations[k].intentID], j'.intents[j.operations[k].intentID]);
  }

  lemma BackupStaysLinked(j: Journal, j': Journal, b: ID)
    requires Consistent(j) && StepGood(j, j') && b in j.backups && BelongsToItsStep(j, b) && b in j'.backups
    requires BackupEvolves(j.backups[b], j'.backups[b])
    requires j.backups[b].operationID in j'.operations ==>
               SameFifth(j.operations[j.backups[b].operationID].payload,
                         j'.operations[j.backups[b].operationID].payload)
    requires j'.backups[b].status == BackupValid ==> j.backups[b].status == BackupValid
    ensures BelongsToItsStep(j', b)
  {
    hide Consistent, StepGood, Trapped, StepAttempt.Complete;
    RowsSurvive(j, j', j.backups[b].operationID);
    assert AttemptEvolves(j.operations[j.backups[b].operationID].payload.attempts[5],
                          j'.operations[j.backups[b].operationID].payload.attempts[5]);
  }

  lemma StepStaysLinked(j: Journal, j': Journal, k: ID)
    requires Consistent(j) && StepGood(j, j') && k in j.operations && HasItsBackup(j, k)
    requires BackupsEvolve(j.backups, j'.backups)
    ensures k in j'.operations && HasItsBackup(j', k)
  {
    hide Consistent, StepGood, OperationEvolves;
    RowsSurvive(j, j', k);
    assert BackupEvolves(j.backups[ReservedFor(j, k)], j'.backups[ReservedFor(j, k)]);
  }

  lemma LinkIsKept(j: Journal, j': Journal)
    requires Consistent(j) && StepGood(j, j') && Linked(j) && NothingBackedUp(j, j') && NothingValidated(j, j')
    ensures Linked(j')
  {
    hide Consistent, Evolves, SameFifth, BelongsToItsStep, HasItsBackup, BackupEvolves;
    BackupsEvolveOf(j, j');
    forall b | b in j'.backups ensures BelongsToItsStep(j', b) {
      if b in j.backups {
        BelongsTo(j, b);
        BackupStaysLinked(j, j', b);
      }
    }
    forall k | k in j'.operations && BackedUp(j'.operations[k].payload) ensures HasItsBackup(j', k) {
      assert BackedUp(j.operations[k].payload) by { FifthBackwards(j, j', k); }
      StepStaysLinked(j, j', k);
    }
  }

  lemma BelongsTo(j: Journal, b: ID)
    requires b in j.backups && BelongsToItsStep(j, b)
    ensures j.backups[b].operationID in j.operations
  {
  }

  lemma FifthBackwards(j: Journal, j': Journal, k: ID)
    requires NothingBackedUp(j, j') && k in j'.operations && BackedUp(j'.operations[k].payload)
    ensures k in j.operations && BackedUp(j.operations[k].payload)
  {
  }

  /** The calls coordinators and operators make. */
  predicate Coordinated(j: Journal, call: Call) {
    match call
    case Transition(_, to, verification, released, _) =>
      (to == Preparing || to == Executing) && verification == NotStarted && !released
    case Record(k, stepID, effect, _, _, _) =>
      || effect == EffectUnknown || effect == OtherObserved
      || (effect == ExpectedObserved && k in j.operations && FindStep(j.operations[k].payload.attempts, stepID) <= 4)
    case _ => true
  }

  /** A call about one operation leaves its S05 as it was, unless the operation becomes unresolved. */
  lemma RecordedFifth(j: Journal, call: Call)
    requires Consistent(j) && ShapesOK(j) && call.Record? && Coordinated(j, call) && Commit(j, call).Ok?
    ensures call.operationID in j.operations && call.operationID in Apply(j, call).operations
    ensures SameFifth(j.operations[call.operationID].payload, Apply(j, call).operations[call.operationID].payload)
  {
    hide Consistent, ShapesOK, RecordStepObservation;
    NamedByKey(j);
    var Record(k, stepID, effect, attribution, evidence, now) := call;
    ObservedRow(j, k, stepID, effect, attribution, evidence, now);
    StepCallTouchesOne(j, call);
    ShapeOf(j, k);
  }

  lemma StepCallFifth(j: Journal, call: Call)
    requires Consistent(j) && ShapesOK(j) && StepCall(call) && Coordinated(j, call)
    ensures NothingBackedUp(j, Apply(j, call))
  {
    hide Consistent, ShapesOK, Coordinated, SameFifth, Commit;
    NamedByKey(j);
    StepCallTouchesOne(j, call);
    forall op: Operation ensures SameFifth(op, op) { UnchangedFifth(op); }
    if Commit(j, call).Ok? {
      if call.Record? { RecordedFifth(j, call); } else { PlainFifth(j, call); }
    }
  }

  lemma UnchangedFifth(op: Operation)
    ensures SameFifth(op, op)
  {
  }

  lemma PlainFifth(j: Journal, call: Call)
    requires Named(j) && StepCall(call) && !call.Record? && Coordinated(j, call) && Commit(j, call).Ok?
    ensures call.operationID in j.operations && call.operationID in Apply(j, call).operations
    ensures SameFifth(j.operations[call.operationID].payload, Apply(j, call).operations[call.operationID].payload)
  {
    hide FindStep, NextAttemptNo;
  }

  lemma OperatorFifth(j: Journal, call: Call)
    requires Named(j) && OperatorCall(call)
    ensures NothingBackedUp(j, Apply(j, call))
  {
    hide Apply, OperatorCall, StepAttempt.Complete;
    OperatorsAreRestrained(j, call);
  }

  lemma SameBackups(j: Journal, j': Journal)
    requires j'.backups == j.backups
    ensures NothingValidated(j, j')
  {
  }

  lemma ReservationFacts(j: Journal, r: BackupRecord, now: Time)
    requires Commit(j, Reserve(r, now)).Ok?
    ensures var j' := Apply(j, Reserve(r, now));
            && j'.operations == j.operations && j'.intents == j.intents
            && r.backupID in j'.backups && j'.backups[r.backupID] == BackupRow(r.operationID, BackupReserved, r)
    ensures r.operationID in j.operations &&
            var op := j.operations[r.operationID].payload;
            && |op.attempts| == 6 && op.attempts[5].stepID == r.stepID
            && op.intentID in j.intents && j.intents[op.intentID].payload.intent.reservedBackupID == r.backupID
  {
    hide ValidateReady, FreshEvidence;
  }

  lemma ReservationBelongs(j: Journal, r: BackupRecord, now: Time)
    requires Consistent(j) && Commit(j, Reserve(r, now)).Ok?
    ensures var j' := Apply(j, Reserve(r, now));
            r.backupID in j'.backups && BelongsToItsStep(j', r.backupID) && j'.backups[r.backupID].status != BackupValid
  {
    hide Consistent, Commit;
    ReservationFacts(j, r, now);
    OperationFacts(j, r.operationID);
  }

  lemma ReserveLinks(j: Journal, r: BackupRecord, now: Time)
    requires Consistent(j)
    ensures NothingValidated(j, Apply(j, Reserve(r, now)))
  {
    hide Consistent, Commit, BelongsToItsStep;
    if Commit(j, Reserve(r, now)).Ok? {
      ReservationBelongs(j, r, now);
      ReservedRecord(j, r, now);
    } else {
      SameBackups(j, j);
    }
  }

  lemma MoveLinks(j: Journal, b: ID, to: BackupStatus)
    requires Consistent(j)
    ensures NothingValidated(j, Apply(j, MoveBackup(b, to)))
  {
    hide Consistent, BelongsToItsStep;
    if b in j.backups { BackupFacts(j, b); }
  }

  lemma SameOperations(j: Journal, j': Journal)
    requires j'.operations == j.operations
    ensures NothingBackedUp(j, j')
  {
  }

  /** The one call that completes S05 makes the backup it names VALID, and touches nothing else. */
  ghost predicate Completes(j: Journal, j': Journal, b: ID) {
    && b in j.backups && b in j'.backups && j'.backups == j.backups[b := j'.backups[b]]
    && BackupEvolves(j.backups[b], j'.backups[b]) && j.backups[b].status != BackupValid &&
      j'.backups[b].status == BackupValid
    && var k := j.backups[b].operationID;
    && Only(j, j', k) && k in j'.operations && BackedUp(j'.operations[k].payload)
  }

  lemma CompletionCompletes(j: Journal, b: ID, digest: string, size: int, ready: ReadyEvidence, now: Time)
    requires Consistent(j) && Commit(j, Complete(b, digest, size, ready, now)).Ok?
    ensures Completes(j, Apply(j, Complete(b, digest, size, ready, now)), b)
    ensures StepGood(j, Apply(j, Complete(b, digest, size, ready, now)))
  {
    hide Consistent, Commit, StepAttempt.Complete, Evolves;
    var j' := Apply(j, Complete(b, digest, size, ready, now));
    CompletedRecord(j, b, digest, size, ready, now);
    BackupFacts(j, b);
    NamedByKey(j);
    CompletedRow(j, b, digest, size, ready, now);
    CallGood(j, Complete(b, digest, size, ready, now));
    BackupsEvolveOf(j, j');
    BackupFacts(j', b);
  }

  lemma CompletionKeepsBackup(j: Journal, j': Journal, b: ID, x: ID)
    requires Consistent(j) && StepGood(j, j') && Linked(j) && Completes(j, j', b) && x in j.backups
    ensures x in j'.backups && BelongsToItsStep(j', x)
  {
    hide Consistent, StepGood, Trapped, StepAttempt.Complete, AttemptEvolves, HasItsBackup;
    assert BelongsToItsStep(j, x);
    RowsSurvive(j, j', j.backups[x].operationID);
    OneBackupEach(j, x, b);
    FifthStep(j, j', j.backups[x].operationID);
  }

  lemma CompletionKeepsStep(j: Journal, j': Journal, b: ID, m: ID)
    requires Consistent(j) && StepGood(j, j') && Linked(j) && Completes(j, j', b)
    requires m in j.operations && m in j'.operations && BackedUp(j'.operations[m].payload)
    ensures HasItsBackup(j', m)
  {
    hide Consistent, StepGood, Trapped, StepAttempt.Complete, OperationEvolves;
    assert BelongsToItsStep(j, b);
    OperationHasIntent(j, m);
    RowsSurvive(j, j', m);
    if m != j.backups[b].operationID {
      assert HasItsBackup(j, m);
    }
  }

  lemma OperationHasIntent(j: Journal, k: ID)
    requires Consistent(j) && k in j.operations
    ensures j.operations[k].intentID in j.intents
  {
    hide Consistent;
    OperationFacts(j, k);
  }

  lemma CompletionLinks(j: Journal, b: ID, digest: string, size: int, ready: ReadyEvidence, now: Time)
    requires Consistent(j) && Linked(j) && Commit(j, Complete(b, digest, size, ready, now)).Ok?
    ensures Linked(Apply(j, Complete(b, digest, size, ready, now)))
  {
    hide Consistent, Commit, StepGood, BelongsToItsStep, HasItsBackup, BackupEvolves;
    var j' := Apply(j, Complete(b, digest, size, ready, now));
    CompletionCompletes(j, b, digest, size, ready, now);
    forall x | x in j'.backups ensures BelongsToItsStep(j', x) { CompletionKeepsBackup(j, j', b, x); }
    forall m | m in j'.operations && BackedUp(j'.operations[m].payload) ensures HasItsBackup(j', m) {
      CompletionKeepsStep(j, j', b, m);
    }
  }

  lemma OneBackupEach(j: Journal, x: ID, b: ID)
    requires Consistent(j) && x in j.backups && b in j.backups
    ensures x != b ==> j.backups[x].operationID != j.backups[b].operationID
  {
  }

  lemma FifthStep(j: Journal, j': Journal, k: ID)
    requires k in j.operations && k in j'.operations && |j.operations[k].payload.attempts| > 5
    requires OperationEvolves(j.operations[k].payload, j'.operations[k].payload)
    ensures |j'.operations[k].payload.attempts| > 5
    ensures j'.operations[k].payload.attempts[5].stepID == j.operations[k].payload.attempts[5].stepID
  {
    assert AttemptEvolves(j.operations[k].payload.attempts[5], j'.operations[k].payload.attempts[5]);
  }

  lemma CallKeepsLinks(j: Journal, call: Call)
    requires Consistent(j) && ShapesOK(j) && Linked(j) && Coordinated(j, call)
    ensures Linked(Apply(j, call))
  {
    hide Consistent, ShapesOK, Linked, Coordinated, Commit, NothingBackedUp, NothingValidated, Evolves;
    CallGood(j, call);
    if Commit(j, call).Ok? {
      if call.Complete? {
        CompletionLinks(j, call.backupID, call.archiveDigest, call.size, call.ready, call.now);
      } else {
        if StepCall(call) {
          StepCallFifth(j, call);
          StepCallKeepsBackups(j, call);
          SameBackups(j, Apply(j, call));
        } else if OperatorCall(call) {
          NamedByKey(j);
          OperatorFifth(j, call);
          OperatorCallKeepsBackups(j, call);
          SameBackups(j, Apply(j, call));
        } else {
          BackupCallTouchesNoOperation(j, call);
          SameOperations(j, Apply(j, call));
          if call.Reserve? { ReserveLinks(j, call.backup, call.now); }
          else { MoveLinks(j, call.backupID, call.status); }
        }
        LinkIsKept(j, Apply(j, call));
      }
    }
  }

  // ---- Runs ---------------------------------------------------------------------------

  /** The store call a coordinator makes in this state, if any. */
  function CallOf(co: Coordinator, o: Oracle): Option<Call> {
    var k := co.operationID;
    match co.pc
    case Claiming(_) => Some(Transition(k, Preparing, NotStarted, false, o.now))
    case PreparingStep(_, _, n) => if n <= 5 then Some(Prepare(k, FIXED_STEPS[n], o.now, o.freshID)) else None
    case Chosen(f) =>
      if f.n == 3 && f.op.status == Preparing then Some(Transition(k, Executing, NotStarted, false, o.now)) else None
    case Marking(f, _, _) => Some(MarkPossible(k, f.a.stepID, o.now))
    case Recording(f, evidence) => Some(Record(k, f.a.stepID, ExpectedObserved, Correlated, [evidence], o.now))
    case RecordingOther(f, attribution, references) =>
      Some(Record(k, f.a.stepID, OtherObserved, attribution, Texts(references), o.now))
    case RecordingUnattributed(f, references) =>
      Some(Record(k, f.a.stepID, ExpectedObserved, Unattributed, Texts(references), o.now))
    case MarkingUnknown => Some(MarkUnresolved(k, o.now))
    case GivingUp(f) => Some(Record(k, f.a.stepID, EffectUnknown, Unattributed, [Text("reason")], o.now))
    case Creating(_, r, phase) =>
      (match phase
       case Reserving => Some(Reserve(r, o.now))
       case ToWriting => Some(MoveBackup(r.backupID, BackupWriting))
       case ToFinalizing(_) => Some(MoveBackup(r.backupID, BackupFinalizing))
       case ToVerifying(_) => Some(MoveBackup(r.backupID, BackupVerifying))
       case Completing(digest, size, ready) => Some(Complete(r.backupID, digest, size, ready, o.now))
       case _ => None)
    case Inspecting(_, id, Orphaning) => Some(MoveBackup(id, BackupOrphaned))
    case _ => None
  }

  lemma CreateCalls(s: System, c: ID, o: Oracle)
    requires c in s.coordinators && (s.coordinators[c].pc.Creating? || s.coordinators[c].pc.Inspecting?)
    ensures TickStep(s, c, o).j ==
            match CallOf(s.coordinators[c], o) { case Some(call) => Apply(s.j, call) case None => s.j }
  {
    hide LoopHead, PrepareNext, CheckStep, DispatchStep, StopStep, AfterFailedCreate, Offline, Commit,
      ValidateCompleted, Texts;
  }

  lemma ReadingCallsNothing(s: System, c: ID, o: Oracle)
    requires c in s.coordinators
    requires var pc := s.coordinators[c].pc;
             pc.Start? || pc.Loaded? || pc.Loop? || pc.Checking? || pc.Dispatching? || pc.AwaitingStop? ||
               pc.CreateFailed?
    ensures TickStep(s, c, o).j == s.j
  {
    hide Perform, PrepareNext, CreateStep, InspectStep, CanContinue, Offline, ValidateSafety, SafeBefore, JudgeStop,
      MaintenanceConfirmed, NewRecord;
  }

  lemma TickCalls(s: System, c: ID, o: Oracle)
    requires c in s.coordinators
    ensures TickStep(s, c, o).j ==
            match CallOf(s.coordinators[c], o) { case Some(call) => Apply(s.j, call) case None => s.j }
  {
    hide LoopHead, CheckStep, DispatchStep, StopStep, AfterFailedCreate, CreateStep, InspectStep, PrepareStep, Texts;
    var pc := s.coordinators[c].pc;
    if pc.Creating? || pc.Inspecting? { CreateCalls(s, c, o); }
    else if pc.Start? || pc.Loaded? || pc.Loop? || pc.Checking? || pc.Dispatching? || pc.AwaitingStop? ||
      pc.CreateFailed? {
      ReadingCallsNothing(s, c, o);
    }
  }

  lemma CallsAreCoordinated(s: System, c: ID, o: Oracle)
    requires Orderly(s) && c in s.coordinators && CallOf(s.coordinators[c], o).Some?
    ensures Coordinated(s.j, CallOf(s.coordinators[c], o).value) && !OperatorCall(CallOf(s.coordinators[c], o).value)
  {
    hide Orderly, Consistent, ShapesOK, Bound, Texts, FindStep;
    AwarenessOf(s, c);
  }

  lemma NextIsLinked(s: System, action: Action)
    requires Orderly(s) && Linked(s.j) && Internal(action)
    ensures Linked(Next(s, action).j)
  {
    hide Orderly, Linked, TickStep, Apply, Consistent, ShapesOK, CallOf;
    ConsistentAndShaped(s);
    match action
    case Tick(c, o) =>
      if c in s.coordinators {
        TickCalls(s, c, o);
        if CallOf(s.coordinators[c], o).Some? {
          CallsAreCoordinated(s, c, o);
          CallKeepsLinks(s.j, CallOf(s.coordinators[c], o).value);
        }
      }
    case Client(call) => CallKeepsLinks(s.j, call);
    case _ =>
  }

  lemma ConsistentAndShaped(s: System)
    requires Orderly(s)
    ensures Consistent(s.j) && ShapesOK(s.j)
  {
    hide Consistent, ShapesOK;
  }

  lemma {:induction false} RunIsLinked(digests: Digests, actions: seq<Action>)
    requires AllInternal(actions)
    ensures Linked(Run(Initial(digests), actions).j)
  {
    if actions == [] {
    } else {
      hide Linked, Next, Internal, Orderly;
      RunIsLinked(digests, actions[..|actions| - 1]);
      RunIsOrderly(digests, actions[..|actions| - 1]);
      NextIsLinked(Run(Initial(digests), actions[..|actions| - 1]), actions[|actions| - 1]);
    }
  }

  // ---- What S05 says about its backup ----------------------------------------------------

  /**
   A complete S05 always has its VALID backup, the one its intent reserved and its own step made. The converse
   holds as long as the operation is not UNKNOWN or NEEDS_INTERVENTION.
   */
  lemma CompleteExactlyWithValidBackup(digests: Digests, actions: seq<Action>, k: ID)
    requires AllInternal(actions) && k in Run(Initial(digests), actions).j.operations
    ensures var j := Run(Initial(digests), actions).j;
            var op := j.operations[k].payload;
            && j.operations[k].intentID in j.intents
            && (BackedUp(op) ==>
                  HasItsBackup(j, k) && j.backups[ReservedFor(j, k)].payload.stepID == op.attempts[5].stepID)
            && (!Trapped(op) ==> (BackedUp(op) <==> HasItsBackup(j, k)))
  {
    hide Run, Orderly, Consistent, Trapped;
    RunIsLinked(digests, actions);
    RunIsOrderly(digests, actions);
    var s := Run(Initial(digests), actions);
    ConsistentAndShaped(s);
    OperationHasIntent(s.j, k);
    var b := ReservedFor(s.j, k);
    if b in s.j.backups { assert BelongsToItsStep(s.j, b); }
  }

  /** S05 becomes complete only when a Create commits, in the step that makes its backup VALID. */
  lemma CompletedOnlyByItsBackup(s: System, action: Action, k: ID)
    requires Orderly(s) && Internal(action)
    requires k in s.j.operations && !BackedUp(s.j.operations[k].payload)
    requires k in Next(s, action).j.operations && BackedUp(Next(s, action).j.operations[k].payload)
    ensures action.Tick? && action.c in s.coordinators
    ensures var pc := s.coordinators[action.c].pc;
            && pc.Creating? && pc.phase.Completing?
            && var b := pc.r.backupID;
            && b in s.j.backups && s.j.backups[b].operationID == k && s.j.backups[b].payload.status == BackupVerifying
            && b in Next(s, action).j.backups && Next(s, action).j.backups[b].payload.status == BackupValid
  {
    hide Orderly, TickStep, Apply, Consistent, ShapesOK, CallOf, BackedUp, NothingBackedUp, Commit;
    ConsistentAndShaped(s);
    NamedByKey(s.j);
    match action
    case Tick(c, o) =>
      if c in s.coordinators {
        TickCalls(s, c, o);
        if CallOf(s.coordinators[c], o).Some? {
          CallsAreCoordinated(s, c, o);
          CompletedOnlyByCompletion(s.j, CallOf(s.coordinators[c], o).value, k);
          CompletionIsCompleting(s.coordinators[c], o);
        }
      }
    case Client(call) => OperatorFifth(s.j, call); FifthBackwards(s.j, Next(s, action).j, k);
    case _ =>
  }

  lemma CompletionIsCompleting(co: Coordinator, o: Oracle)
    ensures CallOf(co, o).Some? && CallOf(co, o).value.Complete? ==>
              co.pc.Creating? && co.pc.phase.Completing? && CallOf(co, o).value.backupID == co.pc.r.backupID
  {
    hide Texts;
  }

  lemma CompletedOnlyByCompletion(j: Journal, call: Call, k: ID)
    requires Consistent(j) && ShapesOK(j) && Coordinated(j, call) && !OperatorCall(call)
    requires k in j.operations && !BackedUp(j.operations[k].payload)
    requires k in Apply(j, call).operations && BackedUp(Apply(j, call).operations[k].payload)
    ensures call.Complete? && call.backupID in j.backups && j.backups[call.backupID].operationID == k
    ensures j.backups[call.backupID].payload.status == BackupVerifying
    ensures call.backupID in Apply(j, call).backups &&
            Apply(j, call).backups[call.backupID].payload.status == BackupValid
  {
    hide Consistent, ShapesOK, Coordinated, Commit, BackedUp, NothingBackedUp, StepGood;
    if StepCall(call) {
      StepCallFifth(j, call);
      FifthBackwards(j, Apply(j, call), k);
    } else if call.Complete? {
      assert Commit(j, call).Ok?;
      CompletionCompletes(j, call.backupID, call.archiveDigest, call.size, call.ready, call.now);
      CompletedRecord(j, call.backupID, call.archiveDigest, call.size, call.ready, call.now);
    } else {
      BackupCallTouchesNoOperation(j, call);
    }
  }

  lemma UnknownOutlivesS05(j: Journal, k: ID, stepID: ID, evidence: seq<Evidence>, now: Time)
    requires Consistent(j) && ShapesOK(j) && Linked(j)
    requires k in j.operations && BackedUp(j.operations[k].payload) && At(j, k, 5, stepID)
    ensures var j' := Apply(j, Record(k, stepID, EffectUnknown, Unattributed, evidence, now));
            k in j'.operations && HasItsBackup(j', k) && !BackedUp(j'.operations[k].payload) &&
            Trapped(j'.operations[k].payload)
  {
    hide Consistent, ShapesOK, RecordStepObservation, Evolves, HasItsBackup, InOrder, OperationOK, BackupsEvolve,
      BelongsToItsStep, FindStep;
    var call := Record(k, stepID, EffectUnknown, Unattributed, evidence, now);
    CallGood(j, call);
    BackupsEvolveOf(j, Apply(j, call));
    StepStaysLinked(j, Apply(j, call), k);
    ShapeOf(j, k);
    FindStepFinds(j.operations[k].payload.attempts, 5);
    UnknownCommits(j, k, stepID, evidence, now);
    ObservedRow(j, k, stepID, EffectUnknown, Unattributed, evidence, now);
  }

  lemma UnknownCommits(j: Journal, k: ID, stepID: ID, evidence: seq<Evidence>, now: Time)
    requires Named(j) && k in j.operations
    requires var attempts := j.operations[k].payload.attempts;
             var n := FindStep(attempts, stepID);
             n < |attempts| && attempts[n].dispatch != NotDispatched
    ensures RecordStepObservation(j, k, stepID, EffectUnknown, Unattributed, evidence, now).Ok?
  {
    hide FindStep;
  }

  // ---- Exactly how S05 is lost again ------------------------------------------------------

  /** An observation of the sixth attempt of operation k. */
  predicate ObservesFifth(j: Journal, call: Call, k: ID) {
    && call.Record? && call.operationID == k && k in j.operations
    && FindStep(j.operations[k].payload.attempts, call.stepID) == 5
  }

  lemma RecordKeepsFifth(j: Journal, call: Call, k: ID)
    requires Named(j) && call.Record? && call.operationID == k && k in j.operations && Commit(j, call).Ok?
    requires BackedUp(j.operations[k].payload) && !ObservesFifth(j, call, k)
    ensures k in Apply(j, call).operations && BackedUp(Apply(j, call).operations[k].payload)
  {
    hide RecordStepObservation, FindStep;
    StepCallTouchesOne(j, call);
    ObservedRow(j, k, call.stepID, call.effect, call.attribution, call.evidence, call.now);
  }

  lemma PlainCallKeepsFifth(j: Journal, call: Call, k: ID)
    requires Named(j) && StepCall(call) && !call.Record? && call.operationID == k && k in j.operations &&
             Commit(j, call).Ok?
    requires BackedUp(j.operations[k].payload)
    ensures k in Apply(j, call).operations && BackedUp(Apply(j, call).operations[k].payload)
  {
    hide NextAttemptNo;
  }

  lemma OperatorKeepsFifth(j: Journal, call: Call, k: ID)
    requires Named(j) && OperatorCall(call) && k in j.operations && BackedUp(j.operations[k].payload)
    ensures k in Apply(j, call).operations && BackedUp(Apply(j, call).operations[k].payload)
  {
    hide Apply, OperatorCall, StepAttempt.Complete;
    OperatorsAreRestrained(j, call);
  }

  lemma CompletionKeepsFifth(j: Journal, call: Call, k: ID)
    requires Consistent(j) && call.Complete? && k in j.operations && BackedUp(j.operations[k].payload)
    ensures k in Apply(j, call).operations && BackedUp(Apply(j, call).operations[k].payload)
  {
    hide Consistent, Commit, StepAttempt.Complete, StepGood, BackupEvolves;
    if Commit(j, call).Ok? {
      CompletionCompletes(j, call.backupID, call.archiveDigest, call.size, call.ready, call.now);
    }
  }

  /** No call but an observation of S05 itself takes its completion away. */
  lemma OnlyItsObservationUndoes(j: Journal, call: Call, k: ID)
    requires Consistent(j) && k in j.operations && BackedUp(j.operations[k].payload) && !ObservesFifth(j, call, k)
    ensures k in Apply(j, call).operations && BackedUp(Apply(j, call).operations[k].payload)
  {
    hide Consistent, Commit, BackedUp, ObservesFifth;
    NamedByKey(j);
    if OperatorCall(call) { OperatorKeepsFifth(j, call, k); }
    else if call.Complete? { CompletionKeepsFifth(j, call, k); }
    else if StepCall(call) {
      StepCallTouchesOne(j, call);
      if call.operationID == k && Commit(j, call).Ok? {
        if call.Record? { RecordKeepsFifth(j, call, k); } else { PlainCallKeepsFifth(j, call, k); }
      }
    } else { BackupCallTouchesNoOperation(j, call); }
  }

  /** A coordinator that gives up S05 of operation k. */
  predicate GivesUpS05(s: System, action: Action, k: ID) {
    && action.Tick? && action.c in s.coordinators && s.coordinators[action.c].operationID == k
    && s.coordinators[action.c].pc.GivingUp? && s.coordinators[action.c].pc.f.n == 5
  }

  lemma ObservingFifthIsGivingUp(s: System, c: ID, o: Oracle, k: ID)
    requires Orderly(s) && c in s.coordinators && CallOf(s.coordinators[c], o).Some?
    requires ObservesFifth(s.j, CallOf(s.coordinators[c], o).value, k)
    ensures GivesUpS05(s, Tick(c, o), k)
  {
    hide Orderly, Consistent, ShapesOK, Bound, Texts, FindStep;
    AwarenessOf(s, c);
    ShapeOf(s.j, k);
    var f := FrameOf(s.coordinators[c].pc).value;
    FindStepFinds(s.j.operations[k].payload.attempts, f.n);
  }

  /** A complete S05 becomes incomplete if and only if a coordinator that had given it up records that. */
  lemma UndoneExactlyByGivingUp(s: System, action: Action, k: ID)
    requires Orderly(s) && Linked(s.j) && Internal(action)
    requires k in s.j.operations && BackedUp(s.j.operations[k].payload)
    ensures k in Next(s, action).j.operations
    ensures !BackedUp(Next(s, action).j.operations[k].payload) <==> GivesUpS05(s, action, k)
  {
    hide Orderly, Linked, TickStep, Apply, Consistent, ShapesOK, CallOf, BackedUp, ObservesFifth, HasItsBackup;
    ConsistentAndShaped(s);
    match action
    case Tick(c, o) =>
      if c in s.coordinators {
        TickCalls(s, c, o);
        if GivesUpS05(s, action, k) {
          GivingUpUndoes(s, c, o, k);
        } else if CallOf(s.coordinators[c], o).Some? {
          var call := CallOf(s.coordinators[c], o).value;
          if ObservesFifth(s.j, call, k) { ObservingFifthIsGivingUp(s, c, o, k); }
          OnlyItsObservationUndoes(s.j, call, k);
        }
      }
    case Client(call) => NotAnObservation(s.j, call, k); OnlyItsObservationUndoes(s.j, call, k);
    case _ =>
  }

  lemma NotAnObservation(j: Journal, call: Call, k: ID)
    requires OperatorCall(call)
    ensures !ObservesFifth(j, call, k)
  {
  }

  lemma GivingUpUndoes(s: System, c: ID, o: Oracle, k: ID)
    requires Orderly(s) && Linked(s.j) && GivesUpS05(s, Tick(c, o), k)
    requires k in s.j.operations && BackedUp(s.j.operations[k].payload)
    ensures var j := Next(s, Tick(c, o)).j;
            k in j.operations && HasItsBackup(j, k) && !BackedUp(j.operations[k].payload) &&
              Trapped(j.operations[k].payload)
  {
    hide Orderly, Consistent, ShapesOK, Linked, HasItsBackup, BackedUp, Trapped, Apply, Bound, Aware, TickStep;
    AwarenessOf(s, c);
    TickCalls(s, c, o);
    UnknownOutlivesS05(s.j, k, s.coordinators[c].pc.f.a.stepID, [Text("reason")], o.now);
  }

  // ---- Over whole runs ------------------------------------------------------------------------

  ghost predicate Complete5(s: System, k: ID) {
    k in s.j.operations && BackedUp(s.j.operations[k].payload)
  }

  ghost predicate Valid5(s: System, k: ID) {
    k in s.j.operations && HasItsBackup(s.j, k)
  }

  ghost predicate Unresolved(s: System, k: ID) {
    k in s.j.operations && Trapped(s.j.operations[k].payload)
  }

  lemma NextIsGood(s: System, action: Action)
    requires Orderly(s)
    ensures StepGood(s.j, Next(s, action).j)
  {
    hide Orderly, Consistent, Evolves, Apply, TickStep;
    ConsistentAndShaped(s);
    UnchangedIsGood(s.j);
    match action
    case Tick(c, o) =>
      if c in s.coordinators {
        TickCalls(s, c, o);
        if CallOf(s.coordinators[c], o).Some? { CallGood(s.j, CallOf(s.coordinators[c], o).value); }
      }
    case Client(call) => CallGood(s.j, call);
    case _ =>
  }

  /** A step that makes the backup VALID makes S05 complete. */
  lemma ValidatedIsComplete(s: System, action: Action, k: ID)
    requires Orderly(s) && Internal(action) && k in s.j.operations && !Valid5(s, k) && Valid5(Next(s, action), k)
    ensures Complete5(Next(s, action), k)
  {
    hide Orderly, Consistent, ShapesOK, Apply, TickStep, CallOf, HasItsBackup;
    ConsistentAndShaped(s);
    match action
    case Tick(c, o) =>
      if c in s.coordinators {
        TickCalls(s, c, o);
        if CallOf(s.coordinators[c], o).Some? { ValidatedByCompletion(s.j, CallOf(s.coordinators[c], o).value, k); }
      }
    case Client(call) => ValidatedByCompletion(s.j, call, k);
    case _ =>
  }

  lemma ValidatedByCompletion(j: Journal, call: Call, k: ID)
    requires Consistent(j) && k in j.operations && !HasItsBackup(j, k)
    requires k in Apply(j, call).operations && HasItsBackup(Apply(j, call), k)
    ensures BackedUp(Apply(j, call).operations[k].payload)
  {
    hide Consistent, Commit, StepAttempt.Complete, Evolves, NothingValidated;
    var j' := Apply(j, call);
    CallGood(j, call);
    OperationHasIntent(j, k);
    RowsSurvive(j, j', k);
    if call.Complete? {
      if Commit(j, call).Ok? {
        CompletionCompletes(j, call.backupID, call.archiveDigest, call.size, call.ready, call.now);
      }
    } else {
      OthersValidateNothing(j, call);
      StillNoBackup(j, j', k);
    }
  }

  lemma OthersValidateNothing(j: Journal, call: Call)
    requires Consistent(j) && !call.Complete?
    ensures NothingValidated(j, Apply(j, call))
  {
    hide Consistent, Commit, NothingValidated;
    if StepCall(call) {
      StepCallKeepsBackups(j, call);
      SameBackups(j, Apply(j, call));
    } else if OperatorCall(call) {
      OperatorCallKeepsBackups(j, call);
      SameBackups(j, Apply(j, call));
    } else if call.Reserve? { ReserveLinks(j, call.backup, call.now); }
    else { MoveLinks(j, call.backupID, call.status); }
  }

  lemma StillNoBackup(j: Journal, j': Journal, k: ID)
    requires StepGood(j, j') && NothingValidated(j, j') && k in j.operations && j.operations[k].intentID in j.intents
    requires k in j'.operations && j'.operations[k].intentID in j'.intents && ReservedFor(j', k) == ReservedFor(j, k)
    requires !HasItsBackup(j, k)
    ensures !HasItsBackup(j', k)
  {
    hide Consistent, BelongsToItsStep, OperationsEvolve, IntentsEvolve, ApprovalsEvolve;
    var b := ReservedFor(j, k);
    if b in j.backups && b in j'.backups { assert BackupEvolves(j.backups[b], j'.backups[b]); }
  }

  /** Once undone, S05 is never complete again: the operation is unresolved for good. */
  lemma UndoneStaysUndone(s: System, action: Action, k: ID)
    requires Orderly(s) && Internal(action) && Unresolved(s, k) && !Complete5(s, k)
    ensures Unresolved(Next(s, action), k) && !Complete5(Next(s, action), k)
  {
    hide Orderly, Next, Internal, Consistent, BackedUp;
    ConsistentAndShaped(s);
    NextIsGood(s, action);
    assert OperationEvolves(s.j.operations[k].payload, Next(s, action).j.operations[k].payload);
    if Complete5(Next(s, action), k) {
      CompletedOnlyByItsBackup(s, action, k);
      TrappedBackupIsNotValidated(s, Next(s, action), s.coordinators[action.c].pc.r.backupID, k);
    }
  }

  lemma TrappedBackupIsNotValidated(s: System, s': System, b: ID, k: ID)
    requires StepGood(s.j, s'.j) && Consistent(s.j) && Unresolved(s, k)
    requires b in s.j.backups && s.j.backups[b].operationID == k && b in s'.j.backups
    ensures s'.j.backups[b].payload.status == BackupValid ==> s.j.backups[b].payload.status == BackupValid
  {
    hide Consistent;
    BackupFacts(s.j, b);
    BackupFacts(s'.j, b);
    assert BackupEvolves(s.j.backups[b], s'.j.backups[b]);
  }

  /** At some time after S05 was complete a coordinator that had given it up said so. */
  ghost predicate GivenUpLate(digests: Digests, actions: seq<Action>, k: ID) {
    exists x :: 0 <= x < |actions| && Complete5(Run(Initial(digests), actions[..x]), k) &&
                GivesUpS05(Run(Initial(digests), actions[..x]), actions[x], k)
  }

  lemma PrefixOfRun(actions: seq<Action>, x: nat)
    requires actions != [] && x <= |actions| - 1
    ensures actions[..|actions| - 1][..x] == actions[..x]
  {
  }

  lemma GivenUpLateStep(digests: Digests, actions: seq<Action>, k: ID)
    requires actions != []
    ensures var before := actions[..|actions| - 1];
            GivenUpLate(digests, actions, k) <==>
            || GivenUpLate(digests, before, k)
            || (Complete5(Run(Initial(digests), before), k) &&
                GivesUpS05(Run(Initial(digests), before), actions[|actions| - 1], k))
  {
    hide Run, Complete5, GivesUpS05;
    var before := actions[..|actions| - 1];
    forall x | 0 <= x <= |before| ensures before[..x] == actions[..x] { PrefixOfRun(actions, x); }
    if GivenUpLate(digests, before, k) {
      var x :| 0 <= x < |before| && Complete5(Run(Initial(digests), before[..x]), k) &&
               GivesUpS05(Run(Initial(digests), before[..x]), before[x], k);
      assert before[..x] == actions[..x] && before[x] == actions[x];
    }
    if GivenUpLate(digests, actions, k) {
      var x :| 0 <= x < |actions| && Complete5(Run(Initial(digests), actions[..x]), k) &&
               GivesUpS05(Run(Initial(digests), actions[..x]), actions[x], k);
      if x < |before| { assert before[..x] == actions[..x] && before[x] == actions[x]; }
    }
    assert before[..|before|] == before;
  }

  /**
   A VALID backup stands beside an incomplete S05 if and only if, after S05 was complete, a coordinator that had given
   it up recorded that; the operation is then unresolved.
   */
  lemma {:induction false} ValidButIncompleteIff(digests: Digests, actions: seq<Action>, k: ID)
    requires AllInternal(actions)
    ensures var s := Run(Initial(digests), actions);
            && (Valid5(s, k) && !Complete5(s, k) <==> GivenUpLate(digests, actions, k))
            && (GivenUpLate(digests, actions, k) ==> Unresolved(s, k))
  {
    if actions == [] {
      hide HasItsBackup;
    } else {
      var before, last := actions[..|actions| - 1], actions[|actions| - 1];
      var s := Run(Initial(digests), before);
      hide Next, Run, Internal, Orderly, Linked, Complete5, Valid5, Unresolved, GivesUpS05, GivenUpLate;
      ValidButIncompleteIff(digests, before, k);
      GivenUpLateStep(digests, actions, k);
      RunIsOrderly(digests, before);
      RunIsLinked(digests, before);
      RunSteps(digests, actions);
      IncompleteStep(s, last, k);
    }
  }

  lemma RunSteps(digests: Digests, actions: seq<Action>)
    requires actions != []
    ensures Run(Initial(digests), actions) ==
            Next(Run(Initial(digests), actions[..|actions| - 1]), actions[|actions| - 1])
  {
    hide Next;
  }

  /** One step of the equivalence above. */
  lemma IncompleteStep(s: System, action: Action, k: ID)
    requires Orderly(s) && Linked(s.j) && Internal(action)
    requires Valid5(s, k) && !Complete5(s, k) ==> Unresolved(s, k)
    ensures var s' := Next(s, action);
            && (Valid5(s', k) && !Complete5(s', k) <==>
                (Valid5(s, k) && !Complete5(s, k)) || (Complete5(s, k) && GivesUpS05(s, action, k)))
            && (Valid5(s', k) && !Complete5(s', k) ==> Unresolved(s', k))
  {
    hide Orderly, Linked, Next, Internal, BackedUp, HasItsBackup, Trapped, GivesUpS05;
    var s' := Next(s, action);
    NextIsGood(s, action);
    if Complete5(s, k) {
      UndoneExactlyByGivingUp(s, action, k);
      if GivesUpS05(s, action, k) { GivingUpByTick(s, action, k); }
    } else if Valid5(s, k) {
      UndoneStaysUndone(s, action, k);
      ValidStays(s, action, k);
    } else if Valid5(s', k) {
      if k in s.j.operations { ValidatedIsComplete(s, action, k); } else { NewHasNoBackup(s, action, k); }
    }
  }

  lemma GivingUpByTick(s: System, action: Action, k: ID)
    requires Orderly(s) && Linked(s.j) && GivesUpS05(s, action, k) && Complete5(s, k)
    ensures Valid5(Next(s, action), k) && !Complete5(Next(s, action), k) && Unresolved(Next(s, action), k)
  {
    hide Orderly, Linked, Next, BackedUp, HasItsBackup, Trapped;
    GivingUpUndoes(s, action.c, action.o, k);
  }

  lemma ValidStays(s: System, action: Action, k: ID)
    requires Orderly(s) && Valid5(s, k)
    ensures Valid5(Next(s, action), k)
  {
    hide Orderly, Next, Consistent, HasItsBackup, Evolves;
    ConsistentAndShaped(s);
    NextIsGood(s, action);
    BackupsEvolveOf(s.j, Next(s, action).j);
    StepStaysLinked(s.j, Next(s, action).j, k);
  }

  /** An operation that was just created has no backup. */
  lemma NewHasNoBackup(s: System, action: Action, k: ID)
    requires Orderly(s) && Linked(s.j) && Internal(action) && k !in s.j.operations
    ensures !Valid5(Next(s, action), k)
  {
    hide Orderly, Next, Internal, Linked, Trapped;
    NextIsLinked(s, action);
    if Valid5(Next(s, action), k) {
      NewHasNoAttempts(s, action, k);
      LinkedHasAttempts(Next(s, action).j, k);
    }
  }

  lemma LinkedHasAttempts(j: Journal, k: ID)
    requires Linked(j) && k in j.operations && HasItsBackup(j, k)
    ensures |j.operations[k].payload.attempts| > 5
  {
    assert BelongsToItsStep(j, ReservedFor(j, k));
  }

  lemma NewHasNoAttempts(s: System, action: Action, k: ID)
    requires Orderly(s) && Internal(action) && k !in s.j.operations && k in Next(s, action).j.operations
    ensures Next(s, action).j.operations[k].payload.attempts == []
  {
    hide Orderly, Consistent, ShapesOK, Apply, TickStep, CallOf, OperatorCall;
    ConsistentAndShaped(s);
    NamedByKey(s.j);
    match action
    case Tick(c, o) =>
      if c in s.coordinators {
        TickCalls(s, c, o);
        if CallOf(s.coordinators[c], o).Some? { CoordinatorsAddNoOperation(s, c, o); }
      }
    case Client(call) => OperatorsAreRestrained(s.j, call);
    case _ =>
  }

  lemma CoordinatorsAddNoOperation(s: System, c: ID, o: Oracle)
    requires Orderly(s) && c in s.coordinators && CallOf(s.coordinators[c], o).Some?
    ensures Apply(s.j, CallOf(s.coordinators[c], o).value).operations.Keys == s.j.operations.Keys
  {
    hide Orderly, Consistent, ShapesOK, CallOf, Commit, StepGood, BackupEvolves, BackedUp;
    ConsistentAndShaped(s);
    NamedByKey(s.j);
    CallsAreCoordinated(s, c, o);
    var call := CallOf(s.coordinators[c], o).value;
    if StepCall(call) { StepCallTouchesOne(s.j, call); }
    else if call.Complete? {
      if Commit(s.j, call).Ok? {
        CompletionCompletes(s.j, call.backupID, call.archiveDigest, call.size, call.ready, call.now);
      }
    } else { BackupCallTouchesNoOperation(s.j, call); }
  }

  /**
   One of the two ways to get there: the answer of the completing commit was lost and the journal
   cannot be read again. The other is a second coordinator that gave up on the pending S05 before it completed.
   */
  lemma LostAnswerOutlivesS05(s: System, s1: System, s2: System, c: ID, o: Oracle, o': Oracle)
    requires Orderly(s) && Linked(s.j) && c in s.coordinators && o.fail
    requires s.coordinators[c].pc.CreateFailed? && s.coordinators[c].pc.f.n == 5
    requires s.coordinators[c].operationID in s.j.operations &&
             BackedUp(s.j.operations[s.coordinators[c].operationID].payload)
    requires s1 == Next(s, Tick(c, o)) && s2 == Next(s1, Tick(c, o'))
    ensures var k := s.coordinators[c].operationID;
            && k in s2.j.operations && HasItsBackup(s2.j, k)
            && !BackedUp(s2.j.operations[k].payload) && Trapped(s2.j.operations[k].payload)
  {
    hide Orderly, Consistent, ShapesOK, Linked, HasItsBackup, BackedUp, Trapped, Apply, Bound, Aware, LoopHead,
      PrepareNext, CheckStep, DispatchStep, StopStep, CreateStep, InspectStep, Perform;
    var k, f := s.coordinators[c].operationID, s.coordinators[c].pc.f;
    AwarenessOf(s, c);
    assert s1 == Goto(s, c, GivingUp(f));
    TickCalls(s1, c, o');
    UnknownOutlivesS05(s.j, k, f.a.stepID, [Text("reason")], o'.now);
  }
}
