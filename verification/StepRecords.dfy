/**
 What the journal says about every step before the backup, in every run: a step is dispatched only on an observation
 that its own check accepts, and is complete only with the evidence that this check and its outcome call for.
 */
module StepRecords {
  import opened Octets
  import opened Domain
  import opened Journal
  import opened JournalSafety
  import opened Workflow
  import opened AtMostOnce
  import opened Progress
  import opened BackupProtocol
  import opened BackupBinding

  predicate Completed(op: Operation, n: nat) {
    |op.attempts| > n && op.attempts[n].Complete()
  }

  // ---- One attempt under every call ----------------------------------------------------------

  /** The n-th attempt was complete before, with the same evidence. */
  predicate SameStep(op: Operation, next: Operation, n: nat) {
    && |op.attempts| > n && |next.attempts| > n && op.attempts[n].Complete()
    && op.attempts[n].stepID == next.attempts[n].stepID && op.attempts[n].evidence == next.attempts[n].evidence
  }

  /** This call recorded the n-th attempt of operation k as expected and correlated. */
  predicate RecordsStep(op: Operation, next: Operation, call: Call, k: ID, n: nat) {
    && call.Record? && call.operationID == k && call.effect == ExpectedObserved && call.attribution == Correlated
    && |op.attempts| > n && FindStep(op.attempts, call.stepID) == n
    && |next.attempts| > n && next.attempts[n].stepID == call.stepID && next.attempts[n].evidence == call.evidence
  }

  lemma RecordAndStep(j: Journal, call: Call, k: ID, n: nat)
    requires Named(j) && call.Record? && call.operationID == k && k in j.operations && Commit(j, call).Ok?
    requires k in Apply(j, call).operations && Completed(Apply(j, call).operations[k].payload, n)
    ensures var op, next := j.operations[k].payload, Apply(j, call).operations[k].payload;
            SameStep(op, next, n) || RecordsStep(op, next, call, k, n)
  {
    hide RecordStepObservation, FindStep;
    StepCallTouchesOne(j, call);
    ObservedRow(j, k, call.stepID, call.effect, call.attribution, call.evidence, call.now);
  }

  lemma PlainCallAndStep(j: Journal, call: Call, k: ID, n: nat)
    requires Named(j) && StepCall(call) && !call.Record? && call.operationID == k && k in j.operations &&
             Commit(j, call).Ok?
    requires k in Apply(j, call).operations && Completed(Apply(j, call).operations[k].payload, n)
    ensures SameStep(j.operations[k].payload, Apply(j, call).operations[k].payload, n)
  {
    hide NextAttemptNo;
  }

  lemma OperatorAndStep(j: Journal, call: Call, k: ID, n: nat)
    requires Named(j) && OperatorCall(call)
    requires k in Apply(j, call).operations && Completed(Apply(j, call).operations[k].payload, n)
    ensures k in j.operations && SameStep(j.operations[k].payload, Apply(j, call).operations[k].payload, n)
  {
    hide Apply, OperatorCall;
    OperatorsAreRestrained(j, call);
    assert k in j.operations ==> OperatorMove(j.operations[k].payload, Apply(j, call).operations[k].payload);
  }

  lemma CompletionAndStep(j: Journal, call: Call, k: ID, n: nat)
    requires Consistent(j) && call.Complete? && Commit(j, call).Ok? && n <= 4
    requires k in Apply(j, call).operations && Completed(Apply(j, call).operations[k].payload, n)
    ensures k in j.operations && SameStep(j.operations[k].payload, Apply(j, call).operations[k].payload, n)
  {
    hide Consistent, Commit, Apply;
    NamedByKey(j);
    CompletedRecord(j, call.backupID, call.archiveDigest, call.size, call.ready, call.now);
    BackupFacts(j, call.backupID);
    CompletedRow(j, call.backupID, call.archiveDigest, call.size, call.ready, call.now);
  }

  /** A step before S05 is complete after a call only if it was before, or if this call recorded it. */
  lemma CallsAndStep(j: Journal, call: Call, k: ID, n: nat)
    requires Consistent(j) && n <= 4 && k in Apply(j, call).operations &&
             Completed(Apply(j, call).operations[k].payload, n)
    ensures k in j.operations
    ensures var op, next := j.operations[k].payload, Apply(j, call).operations[k].payload;
            SameStep(op, next, n) || (RecordsStep(op, next, call, k, n) && Commit(j, call).Ok?)
  {
    hide Consistent, Commit, RecordsStep;
    NamedByKey(j);
    if OperatorCall(call) { OperatorAndStep(j, call, k, n); }
    else if call.Complete? { if Commit(j, call).Ok? { CompletionAndStep(j, call, k, n); } }
    else if StepCall(call) {
      StepCallTouchesOne(j, call);
      if call.operationID == k && Commit(j, call).Ok? {
        if call.Record? { RecordAndStep(j, call, k, n); } else { PlainCallAndStep(j, call, k, n); }
      }
    } else { BackupCallTouchesNoOperation(j, call); }
  }

  /** A call that records the n-th step comes from a coordinator that has its evidence. */
  lemma StepIsRecordedHere(s: System, c: ID, o: Oracle, k: ID, n: nat, next: Operation)
    requires Orderly(s) && c in s.coordinators && CallOf(s.coordinators[c], o).Some? && k in s.j.operations
    requires RecordsStep(s.j.operations[k].payload, next, CallOf(s.coordinators[c], o).value, k, n)
    ensures var co := s.coordinators[c];
            co.pc.Recording? && co.pc.f.n == n && co.operationID == k && co.pc.f.a.stepID == next.attempts[n].stepID &&
            next.attempts[n].evidence == [co.pc.evidence]
  {
    hide Orderly, Consistent, ShapesOK, Bound, Texts, FindStep;
    AwarenessOf(s, c);
    ShapeOf(s.j, k);
    var f := FrameOf(s.coordinators[c].pc).value;
    FindStepFinds(s.j.operations[k].payload.attempts, f.n);
  }

  // ---- What a step may go ahead on -------------------------------------------------------------

  /** The observed deployment is the one the intent froze, complete and with nobody else writing. */
  ghost predicate Sound(digests: Digests, o: SafetyObservation, i: ChangeIntent) {
    && (exists e: Enrollment :: AsFrozen(digests, o, e, i))
    && o.available && o.references != [] && o.noConflictingWriter && o.rootExists
  }

  /** The server is up; from S02 on nobody plays, and for the stop admission is closed under maintenance. */
  ghost predicate Cleared(digests: Digests, n: nat, o: SafetyObservation, i: ChangeIntent) {
    && Sound(digests, o, i) && !o.processStopped
    && (n >= 2 ==> o.players == 0)
    && (n >= 3 ==> o.admissionClosed && o.maintenance)
  }

  /** The server is down after a clean stop for this operation, and was cleared before. */
  ghost predicate Down(digests: Digests, k: ID, ready: ReadyEvidence, i: ChangeIntent) {
    && Cleared(digests, 3, ready.beforeStop, i)
    && Sound(digests, ready.offline, i) && ready.offline.processStopped && ready.offline.admissionClosed
    && CleanStop(ready.stop) && ready.stop.operationID == k && ready.stop.containerID == i.containerID
    && ready.stop.bootID == i.expectedBootID && ready.stop.finishedAt <= ready.offline.observedAt
  }

  /** Step n may be dispatched. */
  ghost predicate MayGo(digests: Digests, k: ID, i: ChangeIntent, n: nat, before: SafetyObservation,
                        ready: ReadyEvidence) {
    && (1 <= n <= 3 ==> Cleared(digests, n, before, i))
    && (n >= 4 ==> Down(digests, k, ready, i) && ready.offline == before)
  }

  /** The evidence that completes step n of operation k. */
  ghost predicate Evidenced(digests: Digests, k: ID, stepID: ID, i: ChangeIntent, n: nat, e: Evidence) {
    match n
    case 0 => e.ClaimEvidence? && e.operationID == k && e.intentDigest == i.intentDigest
    case 1 => e.SafetyEvidence? && Cleared(digests, 1, e.observation, i)
    case 2 =>
      && e.MaintenanceEvidence? && e.receipt.operationID == k && e.receipt.stepID == stepID &&
        e.receipt.references != []
      && Sound(digests, e.closed, i) && e.closed.admissionClosed && e.closed.maintenance && e.closed.players == 0
    case 3 =>
      && e.StopReady? && Cleared(digests, 3, e.ready.beforeStop, i)
      && CleanStop(e.ready.stop) && e.ready.stop.operationID == k && e.ready.stop.stepID == stepID
      && e.ready.stop.containerID == i.containerID && e.ready.stop.bootID == i.expectedBootID
    case 4 => e.StopReady? && Down(digests, k, e.ready, i)
    case _ => false
  }

  /** What a coordinator holds where it stands. */
  ghost predicate Founded(digests: Digests, co: Coordinator) {
    && (co.pc.PreparingStep? ==> co.pc.op.operationID == co.operationID)
    && (FrameOf(co.pc).Some? ==> FrameOf(co.pc).value.op.operationID == co.operationID)
    && (co.pc.Marking? || co.pc.Dispatching? ==>
          MayGo(digests, co.operationID, co.pc.f.i, co.pc.f.n, co.pc.before, co.pc.ready))
    && (co.pc.AwaitingStop? ==> co.pc.f.n == 3 && Cleared(digests, 3, co.pc.before, co.pc.f.i))
    && (co.pc.Recording? ==>
          Evidenced(digests, co.operationID, co.pc.f.a.stepID, co.pc.f.i, co.pc.f.n, co.pc.evidence))
  }

  // ---- Where a tick leads ------------------------------------------------------------------------

  /** Nowhere near a dispatch. */
  predicate Aside(pc: Pc) {
    !pc.Marking? && !pc.Dispatching? && !pc.AwaitingStop? && !pc.Recording?
  }

  lemma CreateStaysAside(s: System, c: ID, f: Frame, r: BackupRecord, phase: Phase, o: Oracle)
    requires c in s.coordinators
    ensures var s' := CreateStep(s, c, f, r, phase, o);
            && s'.dispatched == s.dispatched && c in s'.coordinators && Aside(s'.coordinators[c].pc)
            && s'.coordinators == Goto(s, c, s'.coordinators[c].pc).coordinators
            && (FrameOf(s'.coordinators[c].pc).Some? ==> FrameOf(s'.coordinators[c].pc) == Some(f))
            && !s'.coordinators[c].pc.PreparingStep?
  {
    hide CreateStep;
    if StoresPhase(phase) { CreateCallsAside(s, c, f, r, phase, o); } else { CreateWritesAside(s, c, f, r, phase, o); }
  }

  lemma CreateCallsAside(s: System, c: ID, f: Frame, r: BackupRecord, phase: Phase, o: Oracle)
    requires c in s.coordinators && StoresPhase(phase)
    ensures var s' := CreateStep(s, c, f, r, phase, o);
            && s'.dispatched == s.dispatched && c in s'.coordinators && Aside(s'.coordinators[c].pc)
            && s'.coordinators == Goto(s, c, s'.coordinators[c].pc).coordinators
            && (FrameOf(s'.coordinators[c].pc).Some? ==> FrameOf(s'.coordinators[c].pc) == Some(f))
            && !s'.coordinators[c].pc.PreparingStep?
  {
    hide Commit, Offline;
  }

  lemma CreateWritesAside(s: System, c: ID, f: Frame, r: BackupRecord, phase: Phase, o: Oracle)
    requires c in s.coordinators && !StoresPhase(phase)
    ensures var s' := CreateStep(s, c, f, r, phase, o);
            && s'.dispatched == s.dispatched && c in s'.coordinators && Aside(s'.coordinators[c].pc)
            && s'.coordinators == Goto(s, c, s'.coordinators[c].pc).coordinators
            && (FrameOf(s'.coordinators[c].pc).Some? ==> FrameOf(s'.coordinators[c].pc) == Some(f))
            && !s'.coordinators[c].pc.PreparingStep?
  {
    hide Commit, Offline, Perform;
  }

  lemma InspectStaysAside(s: System, c: ID, purpose: Purpose, id: ID, stage: Stage, o: Oracle)
    requires c in s.coordinators
    ensures var s' := InspectStep(s, c, purpose, id, stage, o);
            && s'.dispatched == s.dispatched && c in s'.coordinators && Aside(s'.coordinators[c].pc)
            && s'.coordinators == Goto(s, c, s'.coordinators[c].pc).coordinators
            && FrameOf(s'.coordinators[c].pc).None? && !s'.coordinators[c].pc.PreparingStep?
  {
    if stage.Orphaning? {
      hide Commit, ValidateCompleted;
    } else {
      InspectReadsAside(s, c, purpose, id, stage, o);
      hide InspectStep;
    }
  }

  lemma InspectReadsAside(s: System, c: ID, purpose: Purpose, id: ID, stage: Stage, o: Oracle)
    requires c in s.coordinators && !stage.Orphaning?
    ensures var s' := InspectStep(s, c, purpose, id, stage, o);
            && s'.dispatched == s.dispatched && c in s'.coordinators
            && (s'.coordinators[c].pc.Inspecting? || !Live(s'.coordinators[c].pc))
            && s'.coordinators == Goto(s, c, s'.coordinators[c].pc).coordinators
  {
    hide Perform, ValidateCompleted;
  }

  lemma SoundIfValid(digests: Digests, o: SafetyObservation, enrollment: Enrollment, i: ChangeIntent, now: Time)
    requires ValidateSafety(digests, o, enrollment, i, now).Ok?
    ensures Sound(digests, o, i)
  {
    SafetyIff(digests, o, enrollment, i, now);
    hide ValidateSafety;
  }

  lemma DownIfOffline(digests: Digests, enrollment: Enrollment, f: Frame, observation: SafetyObservation, now: Time)
    requires Offline(digests, enrollment, f, observation, now).Ok?
    ensures var ready := Offline(digests, enrollment, f, observation, now).value;
            Down(digests, f.op.operationID, ready, f.i) && ready.offline == observation
  {
    hide ValidateSafety, ValidateReady;
    var ready := Offline(digests, enrollment, f, observation, now).value;
    ReadyIff(digests, ready, enrollment, f.i, f.op, now);
    SoundIfValid(digests, ready.beforeStop, enrollment, f.i, ready.stop.requestedAt);
    SoundIfValid(digests, ready.offline, enrollment, f.i, now);
  }

  lemma CheckClears(s: System, c: ID, f: Frame, o: Oracle)
    requires c in s.coordinators && f.op.operationID == s.coordinators[c].operationID
    requires s.coordinators[c].pc == Checking(f)
    ensures var s' := CheckStep(s, c, f, o);
            && c in s'.coordinators && s'.coordinators == Goto(s, c, s'.coordinators[c].pc).coordinators
            && Founded(s.j.digests, s'.coordinators[c])
  {
    hide Offline, ValidateSafety, Sound, Down;
    var enrollment := s.coordinators[c].enrollment;
    if ValidateSafety(s.j.digests, o.observation, enrollment, f.i, o.now).Ok? {
      SoundIfValid(s.j.digests, o.observation, enrollment, f.i, o.now);
    }
    if Offline(s.j.digests, enrollment, f, o.observation, o.now).Ok? {
      DownIfOffline(s.j.digests, enrollment, f, o.observation, o.now);
    }
  }

  lemma DispatchFounds(s: System, c: ID, o: Oracle)
    requires c in s.coordinators && s.coordinators[c].pc.Dispatching? && Founded(s.j.digests, s.coordinators[c])
    ensures var pc := s.coordinators[c].pc;
            var s' := DispatchStep(s, c, pc.f, pc.at, pc.before, pc.ready, o);
            && c in s'.coordinators && s'.coordinators == Goto(s, c, s'.coordinators[c].pc).coordinators
            && Founded(s.j.digests, s'.coordinators[c])
  {
    hide NewRecord, ValidateSafety, Sound, Down;
    var f, enrollment := s.coordinators[c].pc.f, s.coordinators[c].enrollment;
    if ValidateSafety(s.j.digests, o.closed, enrollment, f.i, o.now).Ok? {
      SoundIfValid(s.j.digests, o.closed, enrollment, f.i, o.now);
    }
  }

  lemma JudgedIsClean(request: StopRequest, e: StopEvidence, now: Time)
    requires JudgeStop(request, e, now).state == StopConfirmed
    ensures var stop := JudgeStop(request, e, now);
            && CleanStop(stop) && stop.operationID == request.operationID && stop.stepID == request.stepID
            && stop.containerID == request.containerID && stop.bootID == request.bootID
  {
  }

  lemma StopFounds(s: System, c: ID, o: Oracle)
    requires c in s.coordinators && s.coordinators[c].pc.AwaitingStop? && Founded(s.j.digests, s.coordinators[c])
    ensures var pc := s.coordinators[c].pc;
            var s' := StopStep(s, c, pc.f, pc.at, pc.before, o);
            && c in s'.coordinators && s'.coordinators == Goto(s, c, s'.coordinators[c].pc).coordinators
            && Founded(s.j.digests, s'.coordinators[c])
  {
    hide JudgeStop, Cleared, CleanStop;
    var co := s.coordinators[c];
    var f := co.pc.f;
    var request := StopRequest(co.operationID, f.a.stepID, f.i.containerID, f.i.expectedBootID, co.pc.at);
    if JudgeStop(request, o.stop, o.now).state == StopConfirmed { JudgedIsClean(request, o.stop, o.now); }
  }

  /** A tick that moves only its coordinator's place, to a founded one. */
  ghost predicate Lands(s: System, s': System, c: ID) {
    && c in s.coordinators && c in s'.coordinators
    && s'.coordinators == Goto(s, c, s'.coordinators[c].pc).coordinators
    && Founded(s.j.digests, s'.coordinators[c])
  }

  lemma LandsAside(s: System, s': System, c: ID, pc: Pc)
    requires c in s.coordinators && Founded(s.j.digests, s.coordinators[c]) && Aside(pc)
    requires s'.coordinators == Goto(s, c, pc).coordinators
    requires !pc.PreparingStep? && (FrameOf(pc).Some? ==> FrameOf(pc) == FrameOf(s.coordinators[c].pc))
    ensures Lands(s, s', c)
  {
    hide MayGo, Cleared, Evidenced;
  }

  lemma LandsByCall(s: System, c: ID, call: Call, lost: bool, ok: Pc, failed: Pc)
    requires c in s.coordinators && Founded(s.j.digests, s.coordinators[c]) && Aside(ok) && Aside(failed)
    requires !ok.PreparingStep? && (FrameOf(ok).Some? ==> FrameOf(ok) == FrameOf(s.coordinators[c].pc))
    requires !failed.PreparingStep? && (FrameOf(failed).Some? ==> FrameOf(failed) == FrameOf(s.coordinators[c].pc))
    ensures Lands(s, Perform(s, c, call, lost, ok, failed), c)
  {
    hide Commit, Founded, Lands, Aside;
    LandsAside(s, Perform(s, c, call, lost, ok, failed), c, if Commit(s.j, call).Ok? && !lost then ok else failed);
  }

  lemma CallLands(s: System, c: ID, o: Oracle)
    requires c in s.coordinators && Founded(s.j.digests, s.coordinators[c])
    requires var pc := s.coordinators[c].pc;
             || pc.Claiming? || pc.Chosen? || pc.Recording? || pc.RecordingOther? || pc.RecordingUnattributed?
             || pc.MarkingUnknown? || pc.GivingUp?
    ensures Lands(s, TickStep(s, c, o), c)
  {
    hide Founded, Lands, LoopHead, PrepareNext, CheckStep, DispatchStep, StopStep, AfterFailedCreate, CreateStep,
      InspectStep, Perform, Texts;
    var co := s.coordinators[c];
    if CallOf(co, o).Some? {
      var call := CallOf(co, o).value;
      match co.pc
      case Claiming(i) => LandsByCall(s, c, call, o.lost, Loop(i, 0), Halted);
      case Chosen(f) => LandsByCall(s, c, call, o.lost, Checking(f), Halted);
      case Recording(f, _) => LandsByCall(s, c, call, o.lost, Loop(f.i, f.n + 1), Halted);
      case RecordingUnattributed(_, _) => LandsByCall(s, c, call, o.lost, MarkingUnknown, Halted);
      case _ => LandsByCall(s, c, call, o.lost, Halted, Halted);
    } else {
      LandsAside(s, TickStep(s, c, o), c, Checking(co.pc.f));
    }
  }

  lemma MarkLands(s: System, c: ID, o: Oracle)
    requires c in s.coordinators && Founded(s.j.digests, s.coordinators[c]) && s.coordinators[c].pc.Marking?
    ensures Lands(s, TickStep(s, c, o), c)
  {
    hide MayGo, Cleared, Evidenced, Commit, LoopHead, PrepareNext, CheckStep, DispatchStep, StopStep,
      AfterFailedCreate, CreateStep, InspectStep;
  }

  lemma ReadLands(s: System, c: ID, o: Oracle)
    requires c in s.coordinators && Founded(s.j.digests, s.coordinators[c])
    requires var pc := s.coordinators[c].pc; pc.Start? || pc.Loaded? || pc.CreateFailed? || !Live(pc)
    ensures Lands(s, TickStep(s, c, o), c)
  {
    hide Founded, Lands, LoopHead, PrepareNext, CheckStep, DispatchStep, StopStep, CreateStep, InspectStep, Perform,
      CanContinue;
    LandsAside(s, TickStep(s, c, o), c, TickStep(s, c, o).coordinators[c].pc);
  }

  lemma LoopLands(s: System, c: ID, o: Oracle)
    requires c in s.coordinators && Named(s.j) && Founded(s.j.digests, s.coordinators[c]) && s.coordinators[c].pc.Loop?
    ensures Lands(s, TickStep(s, c, o), c)
  {
    hide MayGo, Cleared, Evidenced, PrepareNext, CheckStep, DispatchStep, StopStep, AfterFailedCreate, CreateStep,
      InspectStep, Perform;
  }

  lemma PrepareLands(s: System, c: ID, o: Oracle)
    requires c in s.coordinators && Founded(s.j.digests, s.coordinators[c]) && s.coordinators[c].pc.PreparingStep?
    ensures Lands(s, TickStep(s, c, o), c)
  {
    hide MayGo, Cleared, Evidenced, PrepareStep, LoopHead, CheckStep, DispatchStep, StopStep, AfterFailedCreate,
      CreateStep, InspectStep, Perform;
  }

  lemma CreateLands(s: System, c: ID, o: Oracle)
    requires c in s.coordinators && Founded(s.j.digests, s.coordinators[c])
    requires s.coordinators[c].pc.Creating? || s.coordinators[c].pc.Inspecting?
    ensures Lands(s, TickStep(s, c, o), c)
  {
    hide Founded, Lands, Aside, LoopHead, PrepareNext, CheckStep, DispatchStep, StopStep, AfterFailedCreate,
      CreateStep, InspectStep, Perform;
    var pc := s.coordinators[c].pc;
    if pc.Creating? { CreateStaysAside(s, c, pc.f, pc.r, pc.phase, o); }
    else { InspectStaysAside(s, c, pc.purpose, pc.id, pc.stage, o); }
    LandsAside(s, TickStep(s, c, o), c, TickStep(s, c, o).coordinators[c].pc);
  }

  lemma JudgingLands(s: System, c: ID, o: Oracle)
    requires c in s.coordinators && Founded(s.j.digests, s.coordinators[c])
    requires s.coordinators[c].pc.Checking? || s.coordinators[c].pc.Dispatching? || s.coordinators[c].pc.AwaitingStop?
    ensures Lands(s, TickStep(s, c, o), c)
  {
    var pc := s.coordinators[c].pc;
    if pc.Checking? { CheckClears(s, c, pc.f, o); }
    else if pc.Dispatching? { DispatchFounds(s, c, o); }
    else { StopFounds(s, c, o); }
    hide Founded, LoopHead, PrepareNext, CheckStep, DispatchStep, StopStep, AfterFailedCreate, CreateStep,
      InspectStep, Perform;
  }

  lemma TickLands(s: System, c: ID, o: Oracle)
    requires c in s.coordinators && Named(s.j) && Founded(s.j.digests, s.coordinators[c])
    ensures Lands(s, TickStep(s, c, o), c)
  {
    hide Lands, Founded, TickStep;
    var pc := s.coordinators[c].pc;
    if pc.Marking? { MarkLands(s, c, o); }
    else if pc.Loop? { LoopLands(s, c, o); }
    else if pc.PreparingStep? { PrepareLands(s, c, o); }
    else if pc.Creating? || pc.Inspecting? { CreateLands(s, c, o); }
    else if pc.Checking? || pc.Dispatching? || pc.AwaitingStop? { JudgingLands(s, c, o); }
    else if pc.Start? || pc.Loaded? || pc.CreateFailed? || !Live(pc) { ReadLands(s, c, o); }
    else { CallLands(s, c, o); }
  }

  // ---- The invariant -------------------------------------------------------------------------------

  /** A complete step before S05 has its evidence, for the intent that its operation runs. */
  ghost predicate StepEvidenced(j: Journal, k: ID, n: nat)
    requires k in j.operations
  {
    var op := j.operations[k].payload;
    Completed(op, n) ==>
      && j.operations[k].intentID in j.intents && |op.attempts[n].evidence| == 1
      && Evidenced(j.digests, k, op.attempts[n].stepID, j.intents[j.operations[k].intentID].payload.intent, n,
                   op.attempts[n].evidence[0])
  }

  ghost predicate WellFounded(s: System) {
    && (forall c :: c in s.coordinators ==> Founded(s.j.digests, s.coordinators[c]))
    && (forall k, n: nat | k in s.j.operations && n <= 4 :: StepEvidenced(s.j, k, n))
  }

  lemma KeptEvidence(j: Journal, j': Journal, k: ID, n: nat)
    requires Consistent(j) && StepGood(j, j') && k in j.operations && k in j'.operations && StepEvidenced(j, k, n)
    requires SameStep(j.operations[k].payload, j'.operations[k].payload, n)
    ensures StepEvidenced(j', k, n)
  {
    hide Consistent, OperationEvolves, Evidenced;
    LoadedSurvives(j, j', k);
    assert IntentEvolves(j.intents[j.operations[k].intentID], j'.intents[j.operations[k].intentID]);
  }

  /** The evidence about to be recorded is for the intent the operation runs. */
  lemma NewEvidence(j: Journal, j': Journal, co: Coordinator, n: nat)
    requires Consistent(j) && StepGood(j, j') && Knows(j, co) && Founded(j.digests, co)
    requires co.pc.Recording? && co.pc.f.n == n && co.operationID in j'.operations
    requires Completed(j'.operations[co.operationID].payload, n)
    requires var a := j'.operations[co.operationID].payload.attempts[n];
             a.stepID == co.pc.f.a.stepID && a.evidence == [co.pc.evidence]
    ensures StepEvidenced(j', co.operationID, n)
  {
    hide Consistent, StepGood, Evidenced, MayGo, Cleared;
    BoundSurvives(j, j', co.operationID, co.pc.f.i);
    SameDigests(j, j');
  }

  lemma SameDigests(j: Journal, j': Journal)
    requires StepGood(j, j')
    ensures j'.digests == j.digests
  {
    hide Consistent;
  }

  lemma TickKeepsEvidence(s: System, c: ID, o: Oracle, k: ID, n: nat)
    requires Orderly(s) && WellFounded(s) && c in s.coordinators && n <= 4 && k in TickStep(s, c, o).j.operations
    ensures StepEvidenced(TickStep(s, c, o).j, k, n)
  {
    hide Orderly, Consistent, StepGood, TickStep, CallOf, Apply, Commit, Founded, RecordsStep, SameStep, Evidenced,
      Aware;
    var s' := TickStep(s, c, o);
    ConsistentAndShaped(s);
    NextIsGood(s, Tick(c, o));
    TickCalls(s, c, o);
    if Completed(s'.j.operations[k].payload, n) {
      if CallOf(s.coordinators[c], o).Some? {
        CallsAndStep(s.j, CallOf(s.coordinators[c], o).value, k, n);
        if SameStep(s.j.operations[k].payload, s'.j.operations[k].payload, n) {
          KeptEvidence(s.j, s'.j, k, n);
        } else {
          StepIsRecordedHere(s, c, o, k, n, s'.j.operations[k].payload);
          AwarenessOf(s, c);
          NewEvidence(s.j, s'.j, s.coordinators[c], n);
        }
      } else {
        assert StepEvidenced(s.j, k, n);
      }
    }
  }

  lemma TickIsFounded(s: System, c: ID, o: Oracle)
    requires Orderly(s) && WellFounded(s) && c in s.coordinators
    ensures WellFounded(TickStep(s, c, o))
  {
    hide Orderly, Consistent, StepGood, TickStep, Founded, StepEvidenced;
    var s' := TickStep(s, c, o);
    ConsistentAndShaped(s);
    NamedByKey(s.j);
    NextIsGood(s, Tick(c, o));
    SameDigests(s.j, s'.j);
    TickLands(s, c, o);
    forall k, n: nat | k in s'.j.operations && n <= 4 ensures StepEvidenced(s'.j, k, n) {
      TickKeepsEvidence(s, c, o, k, n);
    }
  }

  lemma ClientIsFounded(s: System, call: Call)
    requires Orderly(s) && WellFounded(s) && OperatorCall(call)
    ensures WellFounded(s.(j := Apply(s.j, call)))
  {
    hide Orderly, Consistent, StepGood, Apply, Founded, SameStep, Evidenced, OperatorCall;
    var j' := Apply(s.j, call);
    ConsistentAndShaped(s);
    NamedByKey(s.j);
    CallGood(s.j, call);
    SameDigests(s.j, j');
    forall k, n: nat | k in j'.operations && n <= 4 ensures StepEvidenced(j', k, n) {
      if Completed(j'.operations[k].payload, n) {
        OperatorAndStep(s.j, call, k, n);
        assert StepEvidenced(s.j, k, n);
        KeptEvidence(s.j, j', k, n);
      }
    }
  }

  lemma FreshIsFounded(digests: Digests, co: Coordinator)
    requires FrameOf(co.pc).None? && !co.pc.PreparingStep?
    ensures Founded(digests, co)
  {
    hide MayGo, Cleared, Evidenced;
  }

  lemma NextIsFounded(s: System, action: Action)
    requires Orderly(s) && WellFounded(s) && Internal(action)
    ensures WellFounded(Next(s, action))
  {
    hide Orderly, TickStep, Apply, Founded, StepEvidenced;
    match action
    case Tick(c, o) => if c in s.coordinators { TickIsFounded(s, c, o); }
    case Client(call) => ClientIsFounded(s, call);
    case Spawn(c, operationID, enrollment) => FreshIsFounded(s.j.digests, Coordinator(operationID, enrollment, Start));
    case SpawnInspect(c, id, enrollment) =>
      FreshIsFounded(s.j.digests, Coordinator("", enrollment, Inspecting(Standalone, id, ReadRecord)));
    case Crash(c) => if c in s.coordinators { FreshIsFounded(s.j.digests, s.coordinators[c].(pc := Halted)); }
    case Tamper(name, bytes) =>
  }

  lemma {:induction false} RunIsFounded(digests: Digests, actions: seq<Action>)
    requires AllInternal(actions)
    ensures WellFounded(Run(Initial(digests), actions))
  {
    if actions == [] {
    } else {
      hide WellFounded, Next, Orderly, Internal;
      var before := actions[..|actions| - 1];
      RunIsFounded(digests, before);
      RunIsOrderly(digests, before);
      NextIsFounded(Run(Initial(digests), before), actions[|actions| - 1]);
    }
  }

  // ---- The results -----------------------------------------------------------------------------------

  /**
   In every run: a coordinator that is about to mark or dispatch S01, S02 or S03 holds an observation of the deployment
   its intent froze, with the server up, its root there and nobody else writing; from S02 on nobody plays, and before
   the stop admission is closed under maintenance. For S04 and S05 the server is down after a clean stop.
   */
  lemma DispatchedOnlyWhenSafe(digests: Digests, actions: seq<Action>, c: ID)
    requires AllInternal(actions) && c in Run(Initial(digests), actions).coordinators
    requires var pc := Run(Initial(digests), actions).coordinators[c].pc; pc.Marking? || pc.Dispatching?
    ensures var s := Run(Initial(digests), actions);
            var pc := s.coordinators[c].pc;
            && (1 <= pc.f.n <= 3 ==>
                  && !pc.before.processStopped && pc.before.noConflictingWriter && pc.before.rootExists
                  && pc.before.bootID == pc.f.i.expectedBootID && pc.before.inventoryDigest == pc.f.i.inventoryDigest
                  && pc.before.configDigest == pc.f.i.configDigest && pc.before.sourceSHA256 == pc.f.i.fromSHA256
                  && (pc.f.n >= 2 ==> pc.before.players == 0)
                  && (pc.f.n == 3 ==> pc.before.admissionClosed && pc.before.maintenance))
            && (pc.f.n >= 4 ==>
                  && pc.ready.offline.processStopped && pc.ready.offline.admissionClosed
                  && pc.ready.offline.noConflictingWriter && pc.ready.offline.rootExists
                  && pc.ready.beforeStop.players == 0 && pc.ready.stop.operationID == s.coordinators[c].operationID
                  && pc.ready.stop.exitCode == 0 && !pc.ready.stop.oomKilled && pc.ready.stop.graceful)
  {
    hide Run, StepEvidenced;
    RunIsFounded(digests, actions);
    assert Founded(Run(Initial(digests), actions).j.digests, Run(Initial(digests), actions).coordinators[c]);
  }

  /** In every run each complete step before S05 holds the one piece of evidence that it calls for. */
  lemma CompleteStepsHaveEvidence(digests: Digests, actions: seq<Action>, k: ID, n: nat)
    requires AllInternal(actions) && n <= 4 && k in Run(Initial(digests), actions).j.operations
    requires var op := Run(Initial(digests), actions).j.operations[k].payload;
             |op.attempts| > n && op.attempts[n].Complete()
    ensures var j := Run(Initial(digests), actions).j;
            var a := j.operations[k].payload.attempts[n];
            && j.operations[k].intentID in j.intents && |a.evidence| == 1
            && Evidenced(j.digests, k, a.stepID, j.intents[j.operations[k].intentID].payload.intent, n, a.evidence[0])
  {
    hide Run, Founded, Evidenced;
    RunIsFounded(digests, actions);
    assert StepEvidenced(Run(Initial(digests), actions).j, k, n);
  }

  /** The durable stop evidence that S04 and S05 build on, with what they observe now. */
  ghost predicate ReadyWith(digests: Digests, enrollment: Enrollment, f: Frame, o: SafetyObservation, now: Time) {
    && |f.op.attempts| > 3 && f.op.attempts[3].attribution == Correlated
    && |f.op.attempts[3].evidence| == 1 && f.op.attempts[3].evidence[0].StopReady?
    && f.op.attempts[3].evidence[0].ready.stop.stepID == f.op.attempts[3].stepID
    && Informative(o, now) && AsFrozen(digests, o, enrollment, f.i) && o.noConflictingWriter && o.rootExists
    && ValidateReady(digests, f.op.attempts[3].evidence[0].ready.(offline := o), enrollment, f.i, f.op, now).Ok?
  }

  /**
   A checked step goes on to be marked if and only if the target answers and, for S01-S03, what it answers is recent,
   the frozen deployment, intact, up, without players from S02 on and closed under maintenance at S03; for S04 and S05
   the durable stop evidence and a fresh observation show the server down. Nothing durable changes either way.
   */
  lemma CheckPassesIff(s: System, c: ID, o: Oracle)
    requires c in s.coordinators && s.coordinators[c].pc.Checking?
    ensures var f, e, seen := s.coordinators[c].pc.f, s.coordinators[c].enrollment, o.observation;
            var s' := Next(s, Tick(c, o));
            && s'.j == s.j && s'.dispatched == s.dispatched && c in s'.coordinators
            && (s'.coordinators[c].pc.Marking? || s'.coordinators[c].pc.Halted?)
            && (s'.coordinators[c].pc.Marking? <==>
                && !o.fail
                && (1 <= f.n <= 3 ==>
                      && Informative(seen, o.now) && AsFrozen(s.j.digests, seen, e, f.i)
                      && seen.noConflictingWriter && seen.rootExists && !seen.processStopped
                      && (f.n >= 2 ==> seen.players == 0) && (f.n == 3 ==> seen.admissionClosed && seen.maintenance))
                && (f.n >= 4 ==> ReadyWith(s.j.digests, e, f, seen, o.now)))
  {
    hide ValidateSafety, ValidateReady, AsFrozen, Informative, LoopHead, PrepareNext, DispatchStep, StopStep,
      AfterFailedCreate, CreateStep, InspectStep, Perform;
    SafetyIff(s.j.digests, o.observation, s.coordinators[c].enrollment, s.coordinators[c].pc.f.i, o.now);
  }

  /**
   S02 is recorded exactly if the receipt is for this step, recent, and a later look shows the server closed and
   empty.
   */
  lemma MaintenanceRecordedIff(s: System, c: ID, o: Oracle)
    requires c in s.coordinators && s.coordinators[c].pc.Dispatching? && s.coordinators[c].pc.f.n == 2
    ensures var co := s.coordinators[c];
            var f, s' := co.pc.f, Next(s, Tick(c, o));
            && c in s'.coordinators &&
              s'.dispatched == s.dispatched + [Dispatch(CloseAdmission, co.operationID, f.a.stepID)]
            && (s'.coordinators[c].pc.Recording? <==>
                && !o.fail && o.receipt.operationID == co.operationID && o.receipt.stepID == f.a.stepID
                && o.receipt.closedAt != ZERO_TIME && co.pc.at <= o.receipt.closedAt <= o.now
                && o.now <= o.receipt.closedAt + 5 * SECOND && o.receipt.references != []
                && Informative(o.closed, o.now) && AsFrozen(s.j.digests, o.closed, co.enrollment, f.i)
                && o.closed.noConflictingWriter && o.closed.rootExists
                && o.closed.admissionClosed && o.closed.maintenance && o.closed.players == 0)
            && (s'.coordinators[c].pc.Recording? || s'.coordinators[c].pc.GivingUp?)
  {
    hide ValidateSafety, AsFrozen, Informative, LoopHead, PrepareNext, CheckStep, StopStep, AfterFailedCreate,
      CreateStep, InspectStep, Perform;
    SafetyIff(s.j.digests, o.closed, s.coordinators[c].enrollment, s.coordinators[c].pc.f.i, o.now);
  }

  /**
   A loaded operation is taken up exactly on an intact, approved intent with the fixed steps, in time and in budget.
   */
  lemma TakenUpIff(s: System, c: ID, o: Oracle)
    requires c in s.coordinators && s.coordinators[c].pc.Loaded?
    ensures var co, s' := s.coordinators[c], Next(s, Tick(c, o));
            var op := co.pc.op;
            && c in s'.coordinators && s'.j == s.j
            && (if op.intentID !in s.j.intents then s'.coordinators[c].pc == Halted
                else
                  var record := s.j.intents[op.intentID].payload;
                  var i := record.intent;
                  var started := if op.attempts == [] then o.now else op.attempts[0].preparedAt;
                  if && s.j.digests.intent(i.(intentDigest := "")) == i.intentDigest == op.intentDigest
                     && record.status == IntentConsumed && op.enrollmentID == co.enrollment.enrollmentID
                     && i.steps == FIXED_STEPS && !op.released
                     && (op.status == Queued || op.status == Preparing || op.status == Executing)
                     && 1 <= i.executionBudgetSeconds <= 900
                     && started <= o.now < started + i.executionBudgetSeconds * 1_000_000_000
                     && (op.attempts == [] || op.attempts[0].dispatch == NotDispatched || op.status == Queued ==>
                           o.now < i.startBefore)
                  then s'.coordinators[c].pc == (if op.status == Queued then Claiming(i) else Loop(i, 0))
                  else s'.coordinators[c].pc == Halted)
  {
    hide LoopHead, PrepareNext, CheckStep, DispatchStep, StopStep, AfterFailedCreate, CreateStep, InspectStep, Perform;
  }

  /**
   What becomes of an answered stop. It is recorded as ours exactly if it is a clean stop for this request and recent;
   as a failure exactly if the process of this request is gone with an error; as somebody else's exactly if the
   requested process is gone without that, and the answer does not claim to be correlated. Anything else is given up as unknown.
   */
  lemma StopOutcomeIff(s: System, c: ID, o: Oracle)
    requires c in s.coordinators && s.coordinators[c].pc.AwaitingStop?
    ensures var co, e := s.coordinators[c], o.stop;
            var f := co.pc.f;
            var s' := Next(s, Tick(c, o));
            var ours := && e.operationID == co.operationID && e.stepID == f.a.stepID && e.containerID == f.i.containerID
                        && e.bootID == f.i.expectedBootID && e.requestedAt == co.pc.at;
            var seen := e.lifecycleAvailable && e.observedAt != ZERO_TIME &&
              e.observedAt <= o.now <= e.observedAt + 5 * SECOND;
            var failed := e.oomKilled || e.exitCode != 0;
            && s'.j == s.j && c in s'.coordinators
            && (s'.coordinators[c].pc.Recording? <==> ours && seen && CleanStop(e.(state := StopConfirmed)))
            && (s'.coordinators[c].pc.RecordingOther? <==> ours && seen && !e.running && failed)
            && (s'.coordinators[c].pc.RecordingUnattributed? <==>
                && e.containerID == f.i.containerID && e.bootID == f.i.expectedBootID && seen && !e.running
                && e.attribution != Correlated && !(ours && failed))
            && (s'.coordinators[c].pc.GivingUp? <==>
                && !s'.coordinators[c].pc.Recording? && !s'.coordinators[c].pc.RecordingOther?
                && !s'.coordinators[c].pc.RecordingUnattributed?)
  {
    hide JudgeStop, CleanStop, LoopHead, PrepareNext, CheckStep, DispatchStep, AfterFailedCreate, CreateStep,
      InspectStep, Perform;
    var co := s.coordinators[c];
    var request := StopRequest(co.operationID, co.pc.f.a.stepID, co.pc.f.i.containerID, co.pc.f.i.expectedBootID,
                               co.pc.at);
    JudgedIff(request, o.stop, o.now);
  }

  lemma JudgedIff(request: StopRequest, e: StopEvidence, now: Time)
    ensures var stop := JudgeStop(request, e, now);
            var ours := && e.operationID == request.operationID && e.stepID == request.stepID
                        && e.containerID == request.containerID && e.bootID == request.bootID
                        && e.requestedAt == request.requestedAt;
            var seen := e.lifecycleAvailable && e.observedAt != ZERO_TIME &&
              e.observedAt <= now <= e.observedAt + 5 * SECOND;
            && stop == e.(state := stop.state)
            && (stop.state == StopConfirmed <==> ours && seen && CleanStop(e.(state := StopConfirmed)))
            && (stop.state == StopFailed <==> ours && seen && !e.running && (e.oomKilled || e.exitCode != 0))
            && (CleanStop(e.(state := StopConfirmed)) ==> e.attribution == Correlated)
  {
  }

  /**
   After a failed Create the coordinator returns quietly if and only if it can read S05 back as expected and
   correlated.
   */
  lemma FailedCreateIff(s: System, c: ID, o: Oracle)
    requires c in s.coordinators && s.coordinators[c].pc.CreateFailed?
    ensures var k, s' := s.coordinators[c].operationID, Next(s, Tick(c, o));
            && s'.j == s.j && c in s'.coordinators
            && (s'.coordinators[c].pc.Halted? <==>
                && !o.fail && k in s.j.operations
                && var attempts := s.j.operations[k].payload.attempts;
                |attempts| == 6 && attempts[5].effect == ExpectedObserved && attempts[5].attribution == Correlated)
            && (s'.coordinators[c].pc.Halted? || s'.coordinators[c].pc == GivingUp(s.coordinators[c].pc.f))
  {
    hide LoopHead, PrepareNext, CheckStep, DispatchStep, StopStep, CreateStep, InspectStep, Perform;
  }

  /** A stop request that the target refuses is given up as unknown, never awaited; either way it is in the log. */
  lemma StopDispatchIff(s: System, c: ID, o: Oracle)
    requires c in s.coordinators && s.coordinators[c].pc.Dispatching? && s.coordinators[c].pc.f.n == 3
    ensures var co, s' := s.coordinators[c], Next(s, Tick(c, o));
            && c in s'.coordinators && s'.j == s.j
            && s'.dispatched == s.dispatched + [Dispatch(GracefulStop, co.operationID, co.pc.f.a.stepID)]
            && s'.coordinators[c].pc == if o.fail then GivingUp(co.pc.f) else AwaitingStop(co.pc.f, co.pc.at,
                                                                                           co.pc.before)
  {
    hide MaintenanceConfirmed, NewRecord, LoopHead, PrepareNext, CheckStep, StopStep, AfterFailedCreate, CreateStep,
      InspectStep, Perform;
  }

  /**
   Where a run takes an operation up: it stops at an unresolved one, never repeats a step that may have been dispatched,
   skips complete steps, and prepares the first one that is missing.
   */
  lemma RunResumesWhere(s: System, c: ID, o: Oracle)
    requires c in s.coordinators && s.coordinators[c].pc.Loop? && s.coordinators[c].pc.n <= 5
    requires s.coordinators[c].operationID in s.j.operations
    ensures var co, s' := s.coordinators[c], Next(s, Tick(c, o));
            var op, n := s.j.operations[co.operationID].payload, co.pc.n;
            && s'.j == s.j && c in s'.coordinators
            && (s'.coordinators[c].pc.Halted? <==> op.status == Unknown || op.status == NeedsIntervention)
            && (s'.coordinators[c].pc.PreparingStep? ==> |op.attempts| <= n)
            && (s'.coordinators[c].pc.Loop? ==> |op.attempts| > n && op.attempts[n].Complete())
            && (s'.coordinators[c].pc.Chosen? ==>
                  |op.attempts| > n && op.attempts[n].dispatch == NotDispatched &&
                    s'.coordinators[c].pc.f.a == op.attempts[n])
            && (s'.coordinators[c].pc.GivingUp? ==>
                  |op.attempts| > n && !op.attempts[n].Complete() && !op.attempts[n].Untouched())
  {
    hide PrepareNext, CheckStep, DispatchStep, StopStep, AfterFailedCreate, CreateStep, InspectStep, Perform;
  }

  lemma OfflineIff(digests: Digests, enrollment: Enrollment, f: Frame, o: SafetyObservation, now: Time)
    ensures var r := Offline(digests, enrollment, f, o, now);
            && (r.Ok? <==> ReadyWith(digests, enrollment, f, o, now))
            && (r.Ok? ==> r.value == f.op.attempts[3].evidence[0].ready.(offline := o))
  {
    hide ValidateSafety, ValidateReady, AsFrozen, Informative;
    SafetyIff(digests, o, enrollment, f.i, now);
  }

  /**
   Create goes on to reserve if and only if a fresh look shows the server down and no final archive is there, and asks
   for completion if and only if another fresh look does; what was seen then goes into the record.
   */
  lemma CreateLooksIff(s: System, c: ID, o: Oracle)
    requires c in s.coordinators && s.coordinators[c].pc.Creating?
    requires s.coordinators[c].pc.phase.CheckFirst? || s.coordinators[c].pc.phase.Rechecking?
    ensures var co, s' := s.coordinators[c], Next(s, Tick(c, o));
            var first := co.pc.phase.CheckFirst?;
            && s'.j == s.j && s'.files == s.files && c in s'.coordinators
            && (s'.coordinators[c].pc.Creating? <==>
                && !o.fail && ReadyWith(s.j.digests, co.enrollment, co.pc.f, o.observation, o.now)
                && (first ==> Final(co.pc.r.backupID) !in s.files))
            && (s'.coordinators[c].pc.Creating? || s'.coordinators[c].pc == CreateFailed(co.pc.f))
            && (s'.coordinators[c].pc.Creating? ==>
                  var pc := s'.coordinators[c].pc;
                  if first then pc.phase.Reserving? && pc.r.ready.offline == o.observation
                  else && pc.phase.Completing? && pc.phase.ready.offline == o.observation
                       && pc.phase.digest == co.pc.phase.digest && pc.phase.size == co.pc.phase.size)
  {
    hide Offline, ReadyWith, LoopHead, PrepareNext, CheckStep, DispatchStep, StopStep, AfterFailedCreate, InspectStep,
      Perform, Commit;
    var co := s.coordinators[c];
    OfflineIff(s.j.digests, co.enrollment, co.pc.f, o.observation, o.now);
  }

  /** Create opens its partial file if and only if none is there, and never one that somebody else left. */
  lemma CreateOpensIff(s: System, c: ID, o: Oracle)
    requires c in s.coordinators && s.coordinators[c].pc.Creating? && s.coordinators[c].pc.phase.Opening?
    ensures var co, s' := s.coordinators[c], Next(s, Tick(c, o));
            var partial := Partial(co.pc.r.backupID);
            && s'.j == s.j && c in s'.coordinators
            && (s'.coordinators[c].pc.Creating? <==> !o.fail && partial !in s.files)
            && s'.files == if s'.coordinators[c].pc.Creating? then s.files[partial := []] else s.files
  {
    hide Offline, LoopHead, PrepareNext, CheckStep, DispatchStep, StopStep, AfterFailedCreate, InspectStep, Perform,
      Commit;
  }
}
