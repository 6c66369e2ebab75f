/**
 What it means that `Run` returns without error when no second coordinator works
 on the same operation: whatever crashed before, S00-S05 are complete, ownership is
 kept, nothing was verified yet, and the reserved backup is VALID and matches its archive.
 */
module SoleRun {
  import opened Octets
  import opened Domain
  import opened Journal
  import opened JournalSafety
  import opened Workflow
  import opened AtMostOnce
  import opened Progress
  import opened BackupProtocol
  import opened BackupBinding

  /** Executes Run, as opposed to having stopped or inspecting on its own. */
  predicate Running(pc: Pc) {
    Live(pc) && !(pc.Inspecting? && pc.purpose.Standalone?)
  }

  ghost predicate Runs(s: System, c: ID, k: ID) {
    c in s.coordinators && s.coordinators[c].operationID == k && Running(s.coordinators[c].pc)
  }

  ghost predicate Sole(s: System, k: ID) {
    forall c, d :: Runs(s, c, k) && Runs(s, d, k) ==> c == d
  }

  predicate Done(op: Operation, n: nat) {
    n <= |op.attempts| && forall m :: 0 <= m < n ==> op.attempts[m].Complete()
  }

  /** On the way to success: nothing it did can have left the operation unresolved. */
  predicate Clear(pc: Pc) {
    pc.Claiming? || pc.Loop? || pc.PreparingStep? || pc.Chosen? || pc.Checking? || pc.Marking? || pc.Dispatching? ||
    pc.AwaitingStop? || pc.Recording? || pc.Creating? || (pc.Inspecting? && pc.purpose.OfRun?)
  }

  ghost predicate Clean(j: Journal, co: Coordinator) {
    var k := co.operationID;
    && (co.pc.Loaded? && k in j.operations && Trapped(j.operations[k].payload) ==> Trapped(co.pc.op))
    && (Clear(co.pc) ==> k in j.operations && !Trapped(j.operations[k].payload))
    && (co.pc.Loop? ==> Done(j.operations[k].payload, co.pc.n))
    && (co.pc.Inspecting? && co.pc.purpose.OfRun? ==>
          && Done(j.operations[k].payload, 6) && co.pc.id == co.pc.purpose.i.reservedBackupID
          && (co.pc.stage.VerifyArchive? ==> ValidAs(j, co.pc.id, co.pc.stage.r)))
  }

  ghost predicate ValidAs(j: Journal, b: ID, r: BackupRecord) {
    b in j.backups && j.backups[b].payload == r && j.backups[b].status == BackupValid
  }

  ghost predicate Single(s: System, k: ID) {
    forall c :: Runs(s, c, k) ==> Clean(s.j, s.coordinators[c])
  }

  // ---- What others do ---------------------------------------------------------------

  lemma ValidAsStays(j: Journal, j': Journal, b: ID, r: BackupRecord)
    requires ValidAs(j, b, r) && BackupsEvolve(j.backups, j'.backups)
    ensures ValidAs(j', b, r)
  {
    assert BackupEvolves(j.backups[b], j'.backups[b]);
  }

  lemma CleanSurvives(j: Journal, j': Journal, co: Coordinator)
    requires Clean(j, co) && BackupsEvolve(j.backups, j'.backups)
    requires co.operationID in j'.operations ==> co.operationID in j.operations
    requires co.operationID in j.operations ==>
               && co.operationID in j'.operations
               && OperatorMove(j.operations[co.operationID].payload, j'.operations[co.operationID].payload)
    ensures Clean(j', co)
  {
    hide BackupsEvolve, ValidAs;
    if co.pc.Inspecting? && co.pc.stage.VerifyArchive? && co.pc.purpose.OfRun? {
      ValidAsStays(j, j', co.pc.id, co.pc.stage.r);
    }
  }

  // ---- What the coordinator itself does ------------------------------------------------

  ghost predicate StepsCleanly(s: System, c: ID, o: Oracle)
    requires c in s.coordinators
  {
    var s' := TickStep(s, c, o);
    c in s'.coordinators && (Running(s'.coordinators[c].pc) ==> Clean(s'.j, s'.coordinators[c]))
  }

  lemma ReadsCleanly(s: System, c: ID, o: Oracle)
    requires c in s.coordinators && Clean(s.j, s.coordinators[c]) && Knows(s.j, s.coordinators[c])
    requires var pc := s.coordinators[c].pc; pc.Start? || pc.Loaded?
    ensures StepsCleanly(s, c, o)
  {
    hide At, LoopHead, PrepareNext, CheckStep, DispatchStep, StopStep, AfterFailedCreate, CreateStep, InspectStep,
      Perform;
  }

  lemma LoopsCleanly(s: System, c: ID, o: Oracle)
    requires c in s.coordinators && Clean(s.j, s.coordinators[c]) && Knows(s.j, s.coordinators[c])
    requires s.coordinators[c].pc.Loop?
    ensures StepsCleanly(s, c, o)
  {
    hide At, Bound, Trapped, PrepareNext, CheckStep, DispatchStep, StopStep, AfterFailedCreate, CreateStep,
      InspectStep, Perform;
  }

  lemma ObservesCleanly(s: System, c: ID, o: Oracle)
    requires c in s.coordinators && Clean(s.j, s.coordinators[c])
    requires var pc := s.coordinators[c].pc;
             pc.Checking? || pc.AwaitingStop? || pc.CreateFailed? || pc.Dispatching? || (pc.Chosen? && !Calls(pc))
    ensures StepsCleanly(s, c, o)
  {
    hide Done, Trapped, ValidAs, Offline, ValidateSafety, SafeBefore, JudgeStop, MaintenanceConfirmed, NewRecord,
      LoopHead, PrepareNext, CreateStep, InspectStep, Perform;
  }

  lemma GivesUpCleanly(s: System, c: ID, o: Oracle)
    requires c in s.coordinators
    requires var pc := s.coordinators[c].pc;
             pc.GivingUp? || pc.MarkingUnknown? || pc.RecordingOther? || pc.RecordingUnattributed?
    ensures StepsCleanly(s, c, o)
  {
    hide Commit, Done, ValidAs, Texts, LoopHead, PrepareNext, CheckStep, DispatchStep, StopStep, AfterFailedCreate,
      CreateStep, InspectStep;
  }

  lemma PlainMove(j: Journal, call: Call)
    requires Named(j) && Commit(j, call).Ok?
    requires call.Prepare? || call.MarkPossible? || (call.Transition? && !Releases(call.to) && call.to != Unknown &&
                                                     call.to != NeedsIntervention)
    ensures var k, j' := call.operationID, Apply(j, call);
            && k in j.operations && k in j'.operations
            && (Trapped(j'.operations[k].payload) ==> Trapped(j.operations[k].payload))
  {
    hide FindStep, NextAttemptNo;
  }

  lemma MovesCleanly(s: System, c: ID, o: Oracle)
    requires c in s.coordinators && Consistent(s.j) && Clean(s.j, s.coordinators[c]) && Calls(s.coordinators[c].pc)
    requires var pc := s.coordinators[c].pc; pc.Claiming? || pc.Chosen? || pc.Marking? || pc.PreparingStep?
    ensures StepsCleanly(s, c, o)
  {
    hide Consistent, Commit, Trapped, ValidAs, PrepareStep, LoopHead, CheckStep, DispatchStep, StopStep,
      AfterFailedCreate, CreateStep, InspectStep;
    NamedByKey(s.j);
    var call := CallOf(s.coordinators[c], o);
    if call.Some? && Commit(s.j, call.value).Ok? { PlainMove(s.j, call.value); }
    if s.coordinators[c].pc.PreparingStep? {
      hide Perform, Done;
      if call.Some? { PreparesCleanly(s, c, o); }
    }
  }

  lemma PreparesCleanly(s: System, c: ID, o: Oracle)
    requires c in s.coordinators && s.coordinators[c].pc.PreparingStep? && CallOf(s.coordinators[c], o).Some?
    requires Clean(s.j, s.coordinators[c])
    requires Commit(s.j, CallOf(s.coordinators[c], o).value).Ok? ==>
               var k, j' := s.coordinators[c].operationID, Apply(s.j, CallOf(s.coordinators[c], o).value);
               k in j'.operations && !Trapped(j'.operations[k].payload)
    ensures StepsCleanly(s, c, o)
  {
    hide PrepareStep, Trapped, ValidAs, LoopHead, CheckStep, DispatchStep, StopStep, AfterFailedCreate, CreateStep,
      InspectStep;
    var PreparingStep(i, op, n) := s.coordinators[c].pc;
    var t := PrepareStep(s.j, s.coordinators[c].operationID, FIXED_STEPS[n], o.now, o.freshID);
    PerformIsPrepare(s, c, o, if t.Ok? then Chosen(Frame(i, op, n, t.value.1)) else Halted);
  }

  lemma RecordedDone(j: Journal, k: ID, n: nat, stepID: ID, evidence: seq<Evidence>, now: Time)
    requires Consistent(j) && ShapesOK(j) && At(j, k, n, stepID) && Held(j.operations[k].payload, n)
    requires !Trapped(j.operations[k].payload)
    requires Commit(j, Record(k, stepID, ExpectedObserved, Correlated, evidence, now)).Ok?
    ensures var j' := Apply(j, Record(k, stepID, ExpectedObserved, Correlated, evidence, now));
            k in j'.operations && !Trapped(j'.operations[k].payload) && Done(j'.operations[k].payload, n + 1)
  {
    hide Consistent, ShapesOK, RecordStepObservation, StepsOK, Shape, Held, Done;
    NamedByKey(j);
    ShapeOf(j, k);
    var op := j.operations[k].payload;
    FindStepFinds(op.attempts, n);
    StepCallTouchesOne(j, Record(k, stepID, ExpectedObserved, Correlated, evidence, now));
    ObservedRow(j, k, stepID, ExpectedObserved, Correlated, evidence, now);
    LastDone(op, Observed(op.attempts[n], ExpectedObserved, Correlated, evidence, now), n,
             j.intents[j.operations[k].intentID]);
  }

  lemma LastDone(op: Operation, a: StepAttempt, n: nat, intent: IntentRow)
    requires Shape(op, intent) && Held(op, n) && !Trapped(op) && n < |op.attempts| && a.Complete()
    ensures forall next: Operation :: next.attempts == op.attempts[n := a] ==> Done(next, n + 1)
  {
  }

  lemma RecordsCleanly(s: System, c: ID, o: Oracle)
    requires Orderly(s) && c in s.coordinators && Clean(s.j, s.coordinators[c]) && s.coordinators[c].pc.Recording?
    ensures StepsCleanly(s, c, o)
  {
    hide Orderly, Consistent, ShapesOK, Held, Commit, Trapped, Done, ValidAs, Bound, At, LoopHead, PrepareNext,
      CheckStep, DispatchStep, StopStep, AfterFailedCreate, CreateStep, InspectStep;
    AwarenessOf(s, c);
    HoldOf(s, c);
    var Recording(f, evidence) := s.coordinators[c].pc;
    var call := Record(s.coordinators[c].operationID, f.a.stepID, ExpectedObserved, Correlated, [evidence], o.now);
    if Commit(s.j, call).Ok? {
      RecordedDone(s.j, s.coordinators[c].operationID, f.n, f.a.stepID, [evidence], o.now);
    }
  }

  lemma CompletedDone(j: Journal, b: ID, digest: string, size: int, ready: ReadyEvidence, now: Time)
    requires Consistent(j) && ShapesOK(j) && Commit(j, Complete(b, digest, size, ready, now)).Ok? && b in j.backups
    ensures var k, j' := j.backups[b].operationID, Apply(j, Complete(b, digest, size, ready, now));
            k in j'.operations && !Trapped(j'.operations[k].payload) && Done(j'.operations[k].payload, 6)
  {
    hide Consistent, ShapesOK, Commit;
    BackupFacts(j, b);
    NamedByKey(j);
    CompletedRow(j, b, digest, size, ready, now);
    ShapeOf(j, j.backups[b].operationID);
  }

  lemma CompletesCleanly(s: System, c: ID, o: Oracle)
    requires Orderly(s) && c in s.coordinators && s.coordinators[c].pc.Creating? &&
             s.coordinators[c].pc.phase.Completing?
    ensures StepsCleanly(s, c, o)
  {
    hide Orderly, Consistent, ShapesOK, Commit, Trapped, Done, ValidAs, Bound, At, Offline, Knows, LoopHead,
      PrepareNext, CheckStep, DispatchStep, StopStep, AfterFailedCreate, InspectStep;
    AwarenessOf(s, c);
    var Creating(f, r, Completing(digest, size, ready)) := s.coordinators[c].pc;
    if Commit(s.j, Complete(r.backupID, digest, size, ready, o.now)).Ok? {
      CompletedDone(s.j, r.backupID, digest, size, ready, o.now);
    }
  }

  lemma CreatesCleanly(s: System, c: ID, o: Oracle)
    requires c in s.coordinators && Clean(s.j, s.coordinators[c])
    requires s.coordinators[c].pc.Creating? && !s.coordinators[c].pc.phase.Completing?
    ensures StepsCleanly(s, c, o)
  {
    hide Commit, Trapped, Done, ValidAs, Offline, LoopHead, PrepareNext, CheckStep, DispatchStep, StopStep,
      AfterFailedCreate, InspectStep;
    var call := CallOf(s.coordinators[c], o);
    if call.Some? { BackupCallTouchesNoOperation(s.j, call.value); }
  }

  lemma ReadRecordIsValid(j: Journal, b: ID)
    requires Consistent(j) && b in j.backups && ValidateCompleted(j.backups[b].payload).Ok?
    ensures ValidAs(j, b, j.backups[b].payload)
  {
    hide Consistent;
    BackupFacts(j, b);
  }

  lemma InspectsCleanly(s: System, c: ID, o: Oracle)
    requires c in s.coordinators && Consistent(s.j) && Clean(s.j, s.coordinators[c])
    requires s.coordinators[c].pc.Inspecting? && s.coordinators[c].pc.purpose.OfRun?
    ensures StepsCleanly(s, c, o)
  {
    hide Consistent, Commit, Trapped, Done, ValidAs, ValidateCompleted, LoopHead, PrepareNext, CheckStep,
      DispatchStep, StopStep, AfterFailedCreate, CreateStep;
    var Inspecting(_, id, stage) := s.coordinators[c].pc;
    if id in s.j.backups && ValidateCompleted(s.j.backups[id].payload).Ok? { ReadRecordIsValid(s.j, id); }
  }

  lemma RunnerStepsCleanly(s: System, c: ID, o: Oracle)
    requires Orderly(s) && c in s.coordinators && Running(s.coordinators[c].pc) && Clean(s.j, s.coordinators[c])
    ensures StepsCleanly(s, c, o)
  {
    hide Orderly, Consistent, ShapesOK, Clean, Knows, Aware, StepsCleanly;
    AwarenessOf(s, c);
    var pc := s.coordinators[c].pc;
    if pc.Start? || pc.Loaded? { ReadsCleanly(s, c, o); }
    else if pc.Loop? { LoopsCleanly(s, c, o); }
    else if pc.GivingUp? || pc.MarkingUnknown? || pc.RecordingOther? || pc.RecordingUnattributed? {
      GivesUpCleanly(s, c, o);
    }
    else if pc.Recording? { RecordsCleanly(s, c, o); }
    else if pc.Creating? { if pc.phase.Completing? { CompletesCleanly(s, c, o); } else { CreatesCleanly(s, c, o); } }
    else if pc.Inspecting? { InspectsCleanly(s, c, o); }
    else if Calls(pc) { MovesCleanly(s, c, o); }
    else { ObservesCleanly(s, c, o); }
  }

  // ---- Runs -------------------------------------------------------------------------------

  lemma NothingToKeepClean(j: Journal, co: Coordinator)
    requires !co.pc.Loaded? && !Clear(co.pc)
    ensures Clean(j, co)
  {
  }

  lemma BystandersStayClean(s: System, j': Journal, k: ID, d: ID)
    requires Orderly(s) && Single(s, k) && Runs(s, d, k) && BackupsEvolve(s.j.backups, j'.backups)
    requires k in s.j.operations ==>
               k in j'.operations && OperatorMove(s.j.operations[k].payload, j'.operations[k].payload)
    ensures Clean(j', s.coordinators[d])
  {
    hide Orderly, Clean, Consistent, ShapesOK, Aware, BackupsEvolve, OperatorMove, Running;
    AwarenessOf(s, d);
    var co := s.coordinators[d];
    if !co.pc.Loaded? && !Clear(co.pc) { NothingToKeepClean(j', co); } else { CleanSurvives(s.j, j', co); }
  }

  /** A step of anyone who does not run operation k leaves it alone. */
  lemma OthersLeaveItAlone(s: System, c: ID, o: Oracle, k: ID)
    requires Orderly(s) && c in s.coordinators && Live(s.coordinators[c].pc) && !Runs(s, c, k)
    ensures var s' := TickStep(s, c, o);
            && Advance(s, s', c) && !Runs(s', c, k)
            && (k in s.j.operations ==> k in s'.j.operations && s'.j.operations[k] == s.j.operations[k])
  {
    hide Orderly, Consistent, Shape, Held, KeepsHolds, Holder, HeldStep, Aware, Evolves, LoopHead, PrepareNext,
      CheckStep, DispatchStep, StopStep, AfterFailedCreate, CreateStep, ValidateCompleted, Commit;
    TickAdvances(s, c, o);
    if s.coordinators[c].pc.Inspecting? && s.coordinators[c].pc.stage.Orphaning? {
      BackupCallTouchesNoOperation(s.j, MoveBackup(s.coordinators[c].pc.id, BackupOrphaned));
    }
  }

  lemma TickKeepsSingle(s: System, c: ID, o: Oracle, k: ID)
    requires Orderly(s) && Sole(s, k) && Single(s, k) && c in s.coordinators && Live(s.coordinators[c].pc)
    ensures Single(TickStep(s, c, o), k)
  {
    var s' := TickStep(s, c, o);
    if Runs(s, c, k) {
      assert Clean(s.j, s.coordinators[c]);
      RunnerStepsCleanly(s, c, o);
      TickAdvances(s, c, o);
      OnlyTheRunner(s, s', c, k);
    } else {
      OthersLeaveItAlone(s, c, o, k);
      OthersStayClean(s, s', c, k);
    }
  }

  lemma OnlyTheRunner(s: System, s': System, c: ID, k: ID)
    requires Sole(s, k) && Runs(s, c, k) && Advance(s, s', c)
    requires c in s'.coordinators && (Running(s'.coordinators[c].pc) ==> Clean(s'.j, s'.coordinators[c]))
    ensures Single(s', k)
  {
    hide Clean, Running, StepGood, Shape, Held, KeepsHolds, Holder, HeldStep, Aware, Only;
    forall d | Runs(s', d, k) ensures Clean(s'.j, s'.coordinators[d]) {
      assert d == c || Runs(s, d, k);
    }
  }

  lemma OthersStayClean(s: System, s': System, c: ID, k: ID)
    requires Orderly(s) && Single(s, k) && Advance(s, s', c) && !Runs(s', c, k)
    requires k in s.j.operations ==> k in s'.j.operations && s'.j.operations[k] == s.j.operations[k]
    ensures Single(s', k)
  {
    hide Orderly, Clean, Running, Evolves, Consistent, Shape, Held, KeepsHolds, Holder, HeldStep, Aware, Only,
      BackupsEvolve;
    BackupsEvolveOf(s.j, s'.j);
    forall d | Runs(s', d, k) ensures Clean(s'.j, s'.coordinators[d]) {
      assert Runs(s, d, k);
      BystandersStayClean(s, s'.j, k, d);
    }
  }

  lemma SpawnKeepsSingle(s: System, c: ID, co: Coordinator, k: ID)
    requires Single(s, k) && (co.pc.Start? || !Running(co.pc))
    ensures Single(s.(coordinators := s.coordinators[c := co]), k)
  {
    hide Clean;
    var s' := s.(coordinators := s.coordinators[c := co]);
    if co.pc.Start? { NothingToKeepClean(s.j, co); }
    forall d | Runs(s', d, k) ensures Clean(s'.j, s'.coordinators[d]) {
      if d != c { assert Runs(s, d, k); }
    }
  }

  lemma ClientKeepsSingle(s: System, call: Call, k: ID)
    requires Orderly(s) && Single(s, k) && OperatorCall(call)
    ensures Single(s.(j := Apply(s.j, call)), k)
  {
    hide Orderly, Clean, Consistent, ShapesOK, Evolves, BackupsEvolve, OperatorMove, Apply, OperatorCall;
    var s' := s.(j := Apply(s.j, call));
    ConsistentAndShaped(s);
    NamedByKey(s.j);
    CallGood(s.j, call);
    BackupsEvolveOf(s.j, s'.j);
    OperatorsAreRestrained(s.j, call);
    forall d | Runs(s', d, k) ensures Clean(s'.j, s'.coordinators[d]) {
      assert Runs(s, d, k);
      BystandersStayClean(s, s'.j, k, d);
    }
  }

  lemma NextKeepsSingle(s: System, action: Action, k: ID)
    requires Orderly(s) && Sole(s, k) && Single(s, k) && Internal(action)
    ensures Single(Next(s, action), k)
  {
    hide Orderly, Sole, Single, TickStep, Apply;
    match action
    case Spawn(c, operationID, enrollment) =>
      if Free(s, c) { SpawnKeepsSingle(s, c, Coordinator(operationID, enrollment, Start), k); }
    case SpawnInspect(c, id, enrollment) =>
      if Free(s, c) { SpawnKeepsSingle(s, c, Coordinator("", enrollment, Inspecting(Standalone, id, ReadRecord)), k); }
    case Crash(c) =>
      if c in s.coordinators && Live(s.coordinators[c].pc) {
        SpawnKeepsSingle(s, c, s.coordinators[c].(pc := Halted), k);
      }
    case Tick(c, o) =>
      if c in s.coordinators {
        if Live(s.coordinators[c].pc) { TickKeepsSingle(s, c, o, k); } else { StoppedStays(s, c, o); }
      }
    case Client(call) => ClientKeepsSingle(s, call, k);
    case Tamper(name, bytes) => FilesKeepSingle(s, Next(s, action), k);
  }

  lemma FilesKeepSingle(s: System, s': System, k: ID)
    requires Single(s, k) && s'.j == s.j && s'.coordinators == s.coordinators
    ensures Single(s', k)
  {
    hide Clean;
    forall d | Runs(s', d, k) ensures Clean(s'.j, s'.coordinators[d]) { assert Runs(s, d, k); }
  }

  /** At no time do two coordinators run operation k. */
  ghost predicate SoleThroughout(digests: Digests, actions: seq<Action>, k: ID) {
    forall x :: 0 <= x <= |actions| ==> Sole(Run(Initial(digests), actions[..x]), k)
  }

  lemma {:induction false} RunIsSingle(digests: Digests, actions: seq<Action>, k: ID)
    requires AllInternal(actions) && SoleThroughout(digests, actions, k)
    ensures Single(Run(Initial(digests), actions), k)
  {
    if actions == [] {
    } else {
      hide Sole, Single, Next, Internal, Orderly;
      var before := actions[..|actions| - 1];
      forall x | 0 <= x <= |before| ensures Sole(Run(Initial(digests), before[..x]), k) {
        assert before[..x] == actions[..x];
      }
      assert before[..|before|] == before;
      RunIsSingle(digests, before, k);
      RunIsOrderly(digests, before);
      NextKeepsSingle(Run(Initial(digests), before), actions[|actions| - 1], k);
    }
  }

  // ---- The result --------------------------------------------------------------------------

  /** Run succeeds only out of the archive check, on a record it read as VALID. */
  lemma FinishesAfterVerification(s: System, c: ID, o: Oracle)
    requires c in s.coordinators && Live(s.coordinators[c].pc)
    requires c in TickStep(s, c, o).coordinators && TickStep(s, c, o).coordinators[c].pc.Finished?
    ensures var pc := s.coordinators[c].pc;
            && pc.Inspecting? && pc.purpose.OfRun? && pc.stage.VerifyArchive?
            && Final(pc.id) in s.files
            && s.j.digests.content(s.files[Final(pc.id)]) == pc.stage.r.archiveSHA256
            && |s.files[Final(pc.id)]| == pc.stage.r.archiveSize
            && TickStep(s, c, o).j == s.j && TickStep(s, c, o).files == s.files
  {
    hide LoopHead, PrepareNext, CheckStep, DispatchStep, StopStep, AfterFailedCreate, CreateStep, Commit,
      ValidateCompleted, CanContinue;
    if !s.coordinators[c].pc.Inspecting? { OnlyInspectionFinishes(s, c, o); }
  }

  lemma OnlyInspectionFinishes(s: System, c: ID, o: Oracle)
    requires c in s.coordinators && Live(s.coordinators[c].pc) && !s.coordinators[c].pc.Inspecting?
    ensures c in TickStep(s, c, o).coordinators && !TickStep(s, c, o).coordinators[c].pc.Finished?
  {
    hide CreateStep, InspectStep, CanContinue, Offline, ValidateSafety, SafeBefore, JudgeStop, MaintenanceConfirmed,
      NewRecord, Commit, PrepareStep, Texts;
    if s.coordinators[c].pc.Creating? { CreateNeverFinishes(s, c, o); }
  }

  lemma CreateNeverFinishes(s: System, c: ID, o: Oracle)
    requires c in s.coordinators && s.coordinators[c].pc.Creating?
    ensures var Creating(f, r, phase) := s.coordinators[c].pc;
            var s' := CreateStep(s, c, f, r, phase, o);
            c in s'.coordinators && !s'.coordinators[c].pc.Finished?
  {
    hide Commit, Offline;
  }

  /**
   When the sole coordinator of an operation returns without error, after any history of crashes: six complete
   attempts, EXECUTING, ownership kept, verification not started, and the reserved backup VALID with the digest and
   size of the archive on disk.
   */
  lemma SuccessMeansBackedUp(digests: Digests, actions: seq<Action>, c: ID, o: Oracle)
    requires AllInternal(actions) && c in Run(Initial(digests), actions).coordinators
    requires SoleThroughout(digests, actions, Run(Initial(digests), actions).coordinators[c].operationID)
    requires Live(Run(Initial(digests), actions).coordinators[c].pc)
    requires var s' := Next(Run(Initial(digests), actions), Tick(c, o));
             c in s'.coordinators && s'.coordinators[c].pc.Finished?
    ensures var s' := Next(Run(Initial(digests), actions), Tick(c, o));
            var k := s'.coordinators[c].operationID;
            && k in s'.j.operations && Success(s', k)
  {
    hide Run, TickStep, Single, Orderly, Success;
    var s := Run(Initial(digests), actions);
    var k := s.coordinators[c].operationID;
    RunIsOrderly(digests, actions);
    RunIsSingle(digests, actions, k);
    FinishesAfterVerification(s, c, o);
    VerifiedIsSuccess(s, c, k);
    TickAdvances(s, c, o);
    SuccessIsDurable(s, TickStep(s, c, o), k);
    AdvanceKeepsOperation(s, TickStep(s, c, o), c);
  }

  lemma AdvanceKeepsOperation(s: System, s': System, c: ID)
    requires Advance(s, s', c)
    ensures s'.coordinators[c].operationID == s.coordinators[c].operationID
  {
    hide StepGood, Shape, Held, KeepsHolds, Holder, HeldStep, Aware, Only;
  }

  ghost predicate Success(s: System, k: ID)
    requires k in s.j.operations
  {
    var op := s.j.operations[k].payload;
    && |op.attempts| == 6 && Done(op, 6)
    && op.status == Executing && !op.released && op.verification == NotStarted
    && s.j.operations[k].intentID in s.j.intents
    && var b := ReservedFor(s.j, k);
    && b in s.j.backups && s.j.backups[b].payload.status == BackupValid && Final(b) in s.files
    && s.j.digests.content(s.files[Final(b)]) == s.j.backups[b].payload.archiveSHA256
    && |s.files[Final(b)]| == s.j.backups[b].payload.archiveSize
  }

  lemma SuccessIsDurable(s: System, s': System, k: ID)
    requires k in s.j.operations && Success(s, k) && s'.j == s.j && s'.files == s.files
    ensures Success(s', k)
  {
  }

  lemma VerifiedIsSuccess(s: System, c: ID, k: ID)
    requires Orderly(s) && Single(s, k) && Runs(s, c, k)
    requires var pc := s.coordinators[c].pc;
             && pc.Inspecting? && pc.purpose.OfRun? && pc.stage.VerifyArchive?
             && Final(pc.id) in s.files
             && s.j.digests.content(s.files[Final(pc.id)]) == pc.stage.r.archiveSHA256
             && |s.files[Final(pc.id)]| == pc.stage.r.archiveSize
    ensures k in s.j.operations && Success(s, k)
  {
    hide Orderly, Consistent, ShapesOK, Aware, StepsOK;
    AwarenessOf(s, c);
    assert Clean(s.j, s.coordinators[c]);
    ShapeOf(s.j, k);
    BackupFacts(s.j, s.coordinators[c].pc.id);
  }
}
