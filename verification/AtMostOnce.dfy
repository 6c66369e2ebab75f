/**
 In every interleaving, with crashes, lost responses, revocations and arbitrary
 other store clients, each operation performs each external action at most once,
 and only while that step is already durable as possibly dispatched.
 */
module AtMostOnce {
  import opened Octets
  import opened Domain
  import opened Journal
  import opened JournalSafety
  import opened Workflow

  // ---- What a coordinator knows although its reads are stale ------------------

  function FrameOf(pc: Pc): Option<Frame> {
    match pc
    case Chosen(f) => Some(f)
    case Checking(f) => Some(f)
    case Marking(f, _, _) => Some(f)
    case Dispatching(f, _, _, _) => Some(f)
    case AwaitingStop(f, _, _) => Some(f)
    case Recording(f, _) => Some(f)
    case RecordingOther(f, _, _) => Some(f)
    case RecordingUnattributed(f, _) => Some(f)
    case GivingUp(f) => Some(f)
    case Creating(f, _, _) => Some(f)
    case CreateFailed(f) => Some(f)
    case _ => None
  }

  function IntentOf(pc: Pc): Option<ChangeIntent> {
    match pc
    case Claiming(i) => Some(i)
    case Loop(i, _) => Some(i)
    case PreparingStep(i, _, _) => Some(i)
    case Inspecting(OfRun(i), _, _) => Some(i)
    case Finished(i) => Some(i)
    case _ => match FrameOf(pc) case Some(f) => Some(f.i) case None => None
  }

  /** Operation k runs the frozen intent i, which has the fixed workflow. */
  ghost predicate Bound(j: Journal, k: ID, i: ChangeIntent) {
    && k in j.operations && j.operations[k].intentID in j.intents
    && j.intents[j.operations[k].intentID].payload.intent == i && i.steps == FIXED_STEPS
  }

  /** The attempt at index n of operation k is this step. */
  ghost predicate At(j: Journal, k: ID, n: nat, stepID: ID) {
    && k in j.operations && n < |j.operations[k].payload.attempts|
    && j.operations[k].payload.attempts[n].stepID == stepID
  }

  ghost predicate Touched(j: Journal, k: ID, n: nat) {
    && k in j.operations && n < |j.operations[k].payload.attempts|
    && j.operations[k].payload.attempts[n].dispatch != NotDispatched
  }

  ghost predicate Knows(j: Journal, co: Coordinator) {
    && (IntentOf(co.pc).Some? ==> Bound(j, co.operationID, IntentOf(co.pc).value))
    && (FrameOf(co.pc).Some? ==>
          var f := FrameOf(co.pc).value; f.n <= 5 && At(j, co.operationID, f.n, f.a.stepID))
    && (co.pc.PreparingStep? ==> co.pc.n <= 5)
    && (co.pc.Loop? ==> co.pc.n <= 6)
    && (co.pc.Dispatching? ==> Touched(j, co.operationID, co.pc.f.n))
    && (co.pc.Loaded? ==> co.operationID in j.operations && j.operations[co.operationID].intentID == co.pc.op.intentID)
  }

  // ---- Permits and the log -----------------------------------------------------

  ghost predicate MayDispatch(co: Coordinator, k: ID, n: nat) {
    co.pc.Dispatching? && co.operationID == k && co.pc.f.n == n
  }

  ghost predicate Logged(dispatched: seq<Dispatch>, k: ID, n: nat) {
    exists x :: 0 <= x < |dispatched| && dispatched[x].operationID == k && StepOf(dispatched[x].kind) == n
  }

  ghost predicate LogOK(s: System) {
    && (forall x :: 0 <= x < |s.dispatched| ==> Durable(s.j, s.dispatched[x]))
    && (forall x, y :: 0 <= x < y < |s.dispatched| ==> !SameAction(s.dispatched[x], s.dispatched[y]))
  }

  /** The step of a dispatched action is in the journal as possibly dispatched or acknowledged. */
  ghost predicate Durable(j: Journal, d: Dispatch) {
    At(j, d.operationID, StepOf(d.kind), d.stepID) && Touched(j, d.operationID, StepOf(d.kind))
  }

  predicate SameAction(d: Dispatch, e: Dispatch) {
    d.operationID == e.operationID && d.kind == e.kind
  }

  ghost predicate PermitsOK(s: System) {
    && (forall c, d | c in s.coordinators && d in s.coordinators && c != d &&
                      s.coordinators[c].pc.Dispatching? ::
          !MayDispatch(s.coordinators[d], s.coordinators[c].operationID, s.coordinators[c].pc.f.n))
    && (forall c | c in s.coordinators && s.coordinators[c].pc.Dispatching? ::
          !Logged(s.dispatched, s.coordinators[c].operationID, s.coordinators[c].pc.f.n))
  }

  ghost predicate KnowledgeOK(s: System) {
    forall c :: c in s.coordinators ==> Knows(s.j, s.coordinators[c])
  }

  ghost predicate Safe(s: System) {
    Consistent(s.j) && KnowledgeOK(s) && LogOK(s) && PermitsOK(s)
  }

  // ---- Knowledge survives what others do -----------------------------------------

  lemma AtSurvives(j: Journal, j': Journal, k: ID, n: nat, stepID: ID)
    requires OperationsEvolve(j.operations, j'.operations)
    ensures At(j, k, n, stepID) ==> At(j', k, n, stepID)
    ensures Touched(j, k, n) ==> Touched(j', k, n)
  {
    if k in j.operations && n < |j.operations[k].payload.attempts| {
      assert OperationEvolves(j.operations[k].payload, j'.operations[k].payload);
      assert AttemptEvolves(j.operations[k].payload.attempts[n], j'.operations[k].payload.attempts[n]);
    }
  }

  lemma BoundSurvives(j: Journal, j': Journal, k: ID, i: ChangeIntent)
    requires Consistent(j) && StepGood(j, j')
    ensures Bound(j, k, i) ==> Bound(j', k, i)
    ensures k in j.operations ==> k in j'.operations && j'.operations[k].intentID == j.operations[k].intentID
  {
    hide Consistent;
    if k in j.operations {
      OperationFacts(j, k);
      assert OperationEvolves(j.operations[k].payload, j'.operations[k].payload);
      OperationFacts(j', k);
      assert IntentEvolves(j.intents[j.operations[k].intentID], j'.intents[j.operations[k].intentID]);
    }
  }

  lemma KnowledgeSurvives(j: Journal, j': Journal, co: Coordinator)
    requires Consistent(j) && StepGood(j, j') && Knows(j, co)
    ensures Knows(j', co)
  {
    hide Consistent, Evolves, Bound, At, Touched;
    assert OperationsEvolve(j.operations, j'.operations) by { OperationsEvolveOf(j, j'); }
    hide OperationsEvolve;
    if IntentOf(co.pc).Some? { BoundSurvives(j, j', co.operationID, IntentOf(co.pc).value); }
    if FrameOf(co.pc).Some? {
      AtSurvives(j, j', co.operationID, FrameOf(co.pc).value.n, FrameOf(co.pc).value.a.stepID);
    }
    if co.pc.Loaded? { LoadedSurvives(j, j', co.operationID); }
  }

  lemma LoadedSurvives(j: Journal, j': Journal, k: ID)
    requires Consistent(j) && StepGood(j, j') && k in j.operations
    ensures k in j'.operations && j'.operations[k].intentID == j.operations[k].intentID
  {
    hide Consistent;
    OperationFacts(j, k);
    assert OperationEvolves(j.operations[k].payload, j'.operations[k].payload);
    OperationFacts(j', k);
  }

  lemma OperationsEvolveOf(j: Journal, j': Journal)
    requires Evolves(j, j')
    ensures OperationsEvolve(j.operations, j'.operations)
  {
  }

  lemma LogSurvives(s: System, s': System)
    requires LogOK(s) && OperationsEvolve(s.j.operations, s'.j.operations) && s'.dispatched == s.dispatched
    ensures LogOK(s')
  {
    hide OperationsEvolve, At, Touched;
    forall x | 0 <= x < |s.dispatched| ensures Durable(s'.j, s.dispatched[x]) {
      var d := s.dispatched[x];
      assert Durable(s.j, d);
      AtSurvives(s.j, s'.j, d.operationID, StepOf(d.kind), d.stepID);
    }
  }

  // ---- Steps that dispatch nothing ------------------------------------------------

  /** Coordinator c moved to a state it has the knowledge for, and nothing was dispatched or permitted. */
  ghost predicate Quiet(s: System, s': System, c: ID) {
    && c in s'.coordinators
    && s'.coordinators == s.coordinators[c := s'.coordinators[c]]
    && s'.dispatched == s.dispatched
    && StepGood(s.j, s'.j)
    && !s'.coordinators[c].pc.Dispatching?
    && Knows(s'.j, s'.coordinators[c])
  }

  lemma QuietIsSafe(s: System, s': System, c: ID)
    requires Safe(s) && Quiet(s, s', c)
    ensures Safe(s')
  {
    hide Consistent, Evolves, Knows, LogOK, Logged;
    OperationsEvolveOf(s.j, s'.j);
    LogSurvives(s, s');
    forall d | d in s'.coordinators ensures Knows(s'.j, s'.coordinators[d]) {
      if d != c { KnowledgeSurvives(s.j, s'.j, s.coordinators[d]); }
    }
    assert forall d :: d in s'.coordinators && d != c ==>
           d in s.coordinators && s'.coordinators[d] == s.coordinators[d];
  }

  lemma ClientIsSafe(s: System, call: Call)
    requires Safe(s)
    ensures Safe(s.(j := Apply(s.j, call)))
  {
    var s' := s.(j := Apply(s.j, call));
    hide Consistent, Evolves, Knows, LogOK, Logged, Apply;
    CallGood(s.j, call);
    OperationsEvolveOf(s.j, s'.j);
    LogSurvives(s, s');
    forall d | d in s'.coordinators ensures Knows(s'.j, s'.coordinators[d]) {
      KnowledgeSurvives(s.j, s'.j, s.coordinators[d]);
    }
  }

  /** The new program counter needs no knowledge the old one lacks. */
  ghost predicate Weaker(pc: Pc, next: Pc) {
    && (IntentOf(next).Some? ==> IntentOf(next) == IntentOf(pc))
    && (FrameOf(next).Some? ==> FrameOf(next) == FrameOf(pc))
    && !next.Dispatching? && !next.Loaded? && !next.PreparingStep?
    && (next.Loop? ==> next.n <= 6)
  }

  lemma WeakerIsKnown(j: Journal, co: Coordinator, next: Pc)
    requires Knows(j, co) && Weaker(co.pc, next)
    ensures Knows(j, co.(pc := next))
  {
  }

  lemma QuietGoto(s: System, c: ID, next: Pc, s': System)
    requires Safe(s) && c in s.coordinators && Weaker(s.coordinators[c].pc, next)
    requires s'.j == s.j && s'.dispatched == s.dispatched && s'.coordinators == Goto(s, c, next).coordinators
    ensures Quiet(s, s', c)
  {
    hide Consistent, Evolves, LogOK, PermitsOK, Knows;
    EvolvesReflexive(s.j);
    assert Knows(s.j, s.coordinators[c]);
    WeakerIsKnown(s.j, s.coordinators[c], next);
  }

  lemma QuietPerform(s: System, c: ID, call: Call, lost: bool, ok: Pc, failed: Pc)
    requires Safe(s) && c in s.coordinators
    requires Weaker(s.coordinators[c].pc, ok) && Weaker(s.coordinators[c].pc, failed)
    ensures Quiet(s, Perform(s, c, call, lost, ok, failed), c)
  {
    hide Consistent, Evolves, LogOK, PermitsOK, Knows, Commit, Weaker;
    CallGood(s.j, call);
    var j' := Apply(s.j, call);
    var co := s.coordinators[c];
    assert Knows(s.j, co);
    KnowledgeSurvives(s.j, j', co);
    WeakerIsKnown(j', co, ok);
    WeakerIsKnown(j', co, failed);
    if Commit(s.j, call).Err? { QuietGoto(s, c, failed, Goto(s, c, failed)); }
    NotDispatchingIfWeaker(co.pc, ok);
    NotDispatchingIfWeaker(co.pc, failed);
  }

  lemma NotDispatchingIfWeaker(pc: Pc, next: Pc)
    requires Weaker(pc, next)
    ensures !next.Dispatching?
  {
  }

  lemma KnowledgeOf(s: System, c: ID)
    requires Safe(s) && c in s.coordinators
    ensures Knows(s.j, s.coordinators[c]) && Consistent(s.j)
  {
  }

  lemma StartIsQuiet(s: System, c: ID, o: Oracle)
    requires Safe(s) && c in s.coordinators && (s.coordinators[c].pc.Start? || s.coordinators[c].pc.Loaded?)
    ensures Quiet(s, TickStep(s, c, o), c)
  {
    hide Safe, Consistent, StepGood, At, Touched, LoopHead, PrepareNext, CheckStep, DispatchStep, StopStep,
      AfterFailedCreate, CreateStep, InspectStep, Perform, CanContinue;
    KnowledgeOf(s, c);
    UnchangedIsGood(s.j);
    var co := s.coordinators[c];
    if co.operationID in s.j.operations { IntentOfOperation(s.j, co.operationID); }
    if co.pc.Loaded? && co.pc.op.intentID in s.j.intents {
      ContinuesFixedSteps(s.j.digests, co.enrollment, co.pc.op, s.j.intents[co.pc.op.intentID].payload, o.now);
    }
  }

  lemma ContinuesFixedSteps(digests: Digests, enrollment: Enrollment, op: Operation, record: IntentRecord, now: Time)
    ensures CanContinue(digests, enrollment, op, record, now).Ok? ==> record.intent.steps == FIXED_STEPS
  {
  }

  lemma IntentOfOperation(j: Journal, k: ID)
    requires Consistent(j) && k in j.operations
    ensures j.operations[k].payload.intentID == j.operations[k].intentID
  {
    OperationFacts(j, k);
  }

  lemma LoopHeadIsQuiet(s: System, c: ID)
    requires Safe(s) && c in s.coordinators && s.coordinators[c].pc.Loop?
    ensures Quiet(s, LoopHead(s, c, s.coordinators[c].pc.i, s.coordinators[c].pc.n), c)
  {
    hide Safe, Consistent, StepGood, Bound, Touched;
    KnowledgeOf(s, c);
    UnchangedIsGood(s.j);
  }

  lemma LoopIsQuiet(s: System, c: ID, o: Oracle)
    requires Safe(s) && c in s.coordinators && s.coordinators[c].pc.Loop?
    ensures Quiet(s, TickStep(s, c, o), c)
  {
    hide Safe, Quiet, LoopHead, PrepareNext, CheckStep, DispatchStep, StopStep, AfterFailedCreate, CreateStep,
      InspectStep, Perform;
    LoopHeadIsQuiet(s, c);
  }

  /** The fixed steps are distinct, so the kind that was prepared tells its index. */
  lemma KindTellsIndex(n: nat, m: nat)
    requires n < |FIXED_STEPS| && m < |FIXED_STEPS| && FIXED_STEPS[n] == FIXED_STEPS[m]
    ensures n == m
  {
  }

  lemma PreparedAt(j: Journal, k: ID, i: ChangeIntent, n: nat, now: Time, stepID: ID)
    requires Consistent(j) && Bound(j, k, i) && n <= 5
    requires PrepareStep(j, k, FIXED_STEPS[n], now, stepID).Ok?
    ensures var (j', a) := PrepareStep(j, k, FIXED_STEPS[n], now, stepID).value;
            |j.operations[k].payload.attempts| == n && a.stepID == stepID && At(j', k, n, stepID)
  {
    hide Consistent, StepsOK, AttemptsHaveRows, DistinctSteps;
    OperationFacts(j, k);
    KindTellsIndex(n, |j.operations[k].payload.attempts|);
  }

  lemma PrepareIsQuiet(s: System, c: ID, o: Oracle)
    requires Safe(s) && c in s.coordinators && s.coordinators[c].pc.PreparingStep?
    ensures Quiet(s, TickStep(s, c, o), c)
  {
    hide Safe, Consistent, Evolves, PrepareStep, Bound, At, Touched, LoopHead, CheckStep, DispatchStep, StopStep,
      AfterFailedCreate, CreateStep, InspectStep, Perform;
    var co := s.coordinators[c];
    KnowledgeOf(s, c);
    EvolvesReflexive(s.j);
    if PrepareStep(s.j, co.operationID, FIXED_STEPS[co.pc.n], o.now, o.freshID).Ok? {
      PrepareGood(s.j, co.operationID, FIXED_STEPS[co.pc.n], o.now, o.freshID);
      PreparedAt(s.j, co.operationID, co.pc.i, co.pc.n, o.now, o.freshID);
      BoundSurvives(s.j, TickStep(s, c, o).j, co.operationID, co.pc.i);
    }
  }

  lemma ObservationIsQuiet(s: System, c: ID, o: Oracle)
    requires Safe(s) && c in s.coordinators
    requires s.coordinators[c].pc.Checking? || s.coordinators[c].pc.AwaitingStop? || s.coordinators[c].pc.CreateFailed?
    ensures Quiet(s, TickStep(s, c, o), c)
  {
    hide Safe, Quiet, Knows, Offline, ValidateSafety, JudgeStop, LoopHead, PrepareNext, DispatchStep, CreateStep,
      InspectStep, Perform;
    QuietGoto(s, c, TickStep(s, c, o).coordinators[c].pc, TickStep(s, c, o));
  }

  lemma TransitionIsQuiet(s: System, c: ID, o: Oracle)
    requires Safe(s) && c in s.coordinators
    requires s.coordinators[c].pc.Claiming? || s.coordinators[c].pc.Chosen? || s.coordinators[c].pc.MarkingUnknown?
    ensures Quiet(s, TickStep(s, c, o), c)
  {
    hide Safe, Quiet, Knows, LoopHead, PrepareNext, CheckStep, DispatchStep, StopStep, AfterFailedCreate, CreateStep,
      InspectStep, Perform;
    var k := s.coordinators[c].operationID;
    match s.coordinators[c].pc
    case Claiming(i) =>
      QuietPerform(s, c, Transition(k, Preparing, NotStarted, false, o.now), o.lost, Loop(i, 0), Halted);
    case Chosen(f) =>
      if f.n == 3 && f.op.status == Preparing {
        QuietPerform(s, c, Transition(k, Executing, NotStarted, false, o.now), o.lost, Checking(f), Halted);
      } else {
        QuietGoto(s, c, Checking(f), TickStep(s, c, o));
      }
    case MarkingUnknown => QuietPerform(s, c, MarkUnresolved(k, o.now), o.lost, Halted, Halted);
  }

  lemma RecordIsQuiet(s: System, c: ID, o: Oracle)
    requires Safe(s) && c in s.coordinators
    requires var pc := s.coordinators[c].pc;
             pc.Recording? || pc.RecordingOther? || pc.RecordingUnattributed? || pc.GivingUp?
    ensures Quiet(s, TickStep(s, c, o), c)
  {
    hide Safe, Quiet, Knows, Texts, LoopHead, PrepareNext, CheckStep, DispatchStep, StopStep, AfterFailedCreate,
      CreateStep, InspectStep, Perform;
    var co := s.coordinators[c];
    var k := co.operationID;
    KnowledgeOf(s, c);
    match co.pc
    case Recording(f, evidence) =>
      FrameIsBounded(s.j, co);
      QuietPerform(s, c, Record(k, f.a.stepID, ExpectedObserved, Correlated, [evidence], o.now), o.lost,
                   Loop(f.i, f.n + 1), Halted);
    case RecordingOther(f, attribution, references) =>
      QuietPerform(s, c, Record(k, f.a.stepID, OtherObserved, attribution, Texts(references), o.now), o.lost, Halted,
                   Halted);
    case RecordingUnattributed(f, references) =>
      QuietPerform(s, c, Record(k, f.a.stepID, ExpectedObserved, Unattributed, Texts(references), o.now), o.lost,
                   MarkingUnknown, Halted);
    case GivingUp(f) =>
      QuietPerform(s, c, Record(k, f.a.stepID, EffectUnknown, Unattributed, [Text("reason")], o.now), o.lost, Halted,
                   Halted);
  }

  lemma FrameIsBounded(j: Journal, co: Coordinator)
    requires Knows(j, co) && FrameOf(co.pc).Some?
    ensures FrameOf(co.pc).value.n <= 5
  {
  }

  predicate StoresPhase(phase: Phase) {
    phase.Reserving? || phase.ToWriting? || phase.ToFinalizing? || phase.ToVerifying? || phase.Completing?
  }

  lemma CreateOnDiskIsQuiet(s: System, c: ID, o: Oracle)
    requires Safe(s) && c in s.coordinators && s.coordinators[c].pc.Creating?
    requires !StoresPhase(s.coordinators[c].pc.phase)
    ensures Quiet(s, TickStep(s, c, o), c)
  {
    hide Safe, Quiet, Knows, Commit, Offline, Apply, LoopHead, PrepareNext, CheckStep, DispatchStep, StopStep,
      AfterFailedCreate, InspectStep, Perform;
    QuietGoto(s, c, TickStep(s, c, o).coordinators[c].pc, TickStep(s, c, o));
  }

  lemma CreateInStoreIsQuiet(s: System, c: ID, o: Oracle)
    requires Safe(s) && c in s.coordinators && s.coordinators[c].pc.Creating?
    requires StoresPhase(s.coordinators[c].pc.phase) && !s.coordinators[c].pc.phase.Completing?
    ensures Quiet(s, TickStep(s, c, o), c)
  {
    hide Safe, Quiet, Knows, Commit, Offline, Apply, LoopHead, PrepareNext, CheckStep, DispatchStep, StopStep,
      AfterFailedCreate, InspectStep, Perform;
    var Creating(f, r, phase) := s.coordinators[c].pc;
    match phase
    case Reserving => QuietPerform(s, c, Reserve(r, o.now), o.lost, Creating(f, r, ToWriting), CreateFailed(f));
    case ToWriting =>
      QuietPerform(s, c, MoveBackup(r.backupID, BackupWriting), o.lost, Creating(f, r, Opening), CreateFailed(f));
    case ToFinalizing(w) =>
      QuietPerform(s, c, MoveBackup(r.backupID, BackupFinalizing), o.lost, Creating(f, r, Renaming(w)),
                   CreateFailed(f));
    case ToVerifying(w) =>
      QuietPerform(s, c, MoveBackup(r.backupID, BackupVerifying), o.lost, Creating(f, r, Rereading(w)),
                   CreateFailed(f));
  }

  lemma CompletionIsQuiet(s: System, c: ID, o: Oracle)
    requires Safe(s) && c in s.coordinators && s.coordinators[c].pc.Creating? && s.coordinators[c].pc.phase.Completing?
    ensures Quiet(s, TickStep(s, c, o), c)
  {
    hide Safe, Quiet, Knows, Commit, Offline, LoopHead, PrepareNext, CheckStep, DispatchStep, StopStep,
      AfterFailedCreate, InspectStep;
    var Creating(f, r, phase) := s.coordinators[c].pc;
    var call := Complete(r.backupID, phase.digest, phase.size, phase.ready, o.now);
    QuietPerform(s, c, call, o.lost, Loop(f.i, 6), CreateFailed(f));
    QuietIgnoresArchives(s, Perform(s, c, call, o.lost, Loop(f.i, 6), CreateFailed(f)), TickStep(s, c, o), c);
  }

  lemma QuietIgnoresArchives(s: System, s': System, s'': System, c: ID)
    requires Quiet(s, s', c)
    requires s''.j == s'.j && s''.coordinators == s'.coordinators && s''.dispatched == s'.dispatched
    ensures Quiet(s, s'', c)
  {
  }

  lemma InspectIsQuiet(s: System, c: ID, o: Oracle)
    requires Safe(s) && c in s.coordinators && s.coordinators[c].pc.Inspecting?
    ensures Quiet(s, TickStep(s, c, o), c)
  {
    hide Safe, Quiet, Knows, Commit, ValidateCompleted, Apply, LoopHead, PrepareNext, CheckStep, DispatchStep,
      StopStep, AfterFailedCreate, CreateStep, Perform;
    var Inspecting(purpose, id, stage) := s.coordinators[c].pc;
    var s' := TickStep(s, c, o);
    if stage.Orphaning? {
      QuietPerform(s, c, MoveBackup(id, BackupOrphaned), o.lost, Halted, Halted);
    } else {
      QuietGoto(s, c, s'.coordinators[c].pc, s');
    }
  }

  // ---- The two steps that matter --------------------------------------------------------

  lemma MarkedOnce(j: Journal, k: ID, n: nat, stepID: ID, now: Time)
    requires Consistent(j) && At(j, k, n, stepID) && MarkDispatchPossible(j, k, stepID, now).Ok?
    ensures !Touched(j, k, n) && Touched(MarkDispatchPossible(j, k, stepID, now).value, k, n)
  {
    hide Consistent, StepsOK, AttemptsHaveRows;
    OperationFacts(j, k);
    FindStepFinds(j.operations[k].payload.attempts, n);
  }

  /** A permit is granted only on an untouched step, so nobody else holds or used one for it. */
  lemma MarkIsSafe(s: System, c: ID, o: Oracle)
    requires Safe(s) && c in s.coordinators && s.coordinators[c].pc.Marking?
    ensures Safe(TickStep(s, c, o))
  {
    hide Safe, Quiet, Knows, Commit, LoopHead, PrepareNext, CheckStep, DispatchStep, StopStep, AfterFailedCreate,
      CreateStep, InspectStep;
    var co := s.coordinators[c];
    var k, f := co.operationID, co.pc.f;
    var call := MarkPossible(k, f.a.stepID, o.now);
    var s' := TickStep(s, c, o);
    if Commit(s.j, call).Ok? && !o.lost {
      MarkGrantsPermit(s, c, o);
    } else {
      QuietPerform(s, c, call, true, Halted, Halted);
      QuietIsSafe(s, s', c);
    }
  }

  lemma MarkGrantsPermit(s: System, c: ID, o: Oracle)
    requires Safe(s) && c in s.coordinators && s.coordinators[c].pc.Marking? && !o.lost
    requires Commit(s.j, MarkPossible(s.coordinators[c].operationID, s.coordinators[c].pc.f.a.stepID, o.now)).Ok?
    ensures Safe(TickStep(s, c, o))
  {
    hide Consistent, Evolves, LogOK, Logged, Touched, At, Bound, MarkDispatchPossible, LoopHead, PrepareNext,
      CheckStep, DispatchStep, StopStep, AfterFailedCreate, CreateStep, InspectStep;
    var co := s.coordinators[c];
    var k, f := co.operationID, co.pc.f;
    var call := MarkPossible(k, f.a.stepID, o.now);
    var s' := TickStep(s, c, o);
    assert Knows(s.j, co);
    MarkedOnce(s.j, k, f.n, f.a.stepID, o.now);
    CallGood(s.j, call);
    OperationsEvolveOf(s.j, s'.j);
    LogSurvives(s, s');
    KnowledgeSurvives(s.j, s'.j, co);
    forall d | d in s'.coordinators ensures Knows(s'.j, s'.coordinators[d]) {
      if d != c { KnowledgeSurvives(s.j, s'.j, s.coordinators[d]); }
    }
    NotYetLogged(s, k, f.n);
    forall d | d in s.coordinators ensures !MayDispatch(s.coordinators[d], k, f.n) {
      assert Knows(s.j, s.coordinators[d]);
    }
  }

  lemma NotYetLogged(s: System, k: ID, n: nat)
    requires LogOK(s) && !Touched(s.j, k, n)
    ensures !Logged(s.dispatched, k, n)
  {
    forall x | 0 <= x < |s.dispatched|
      ensures s.dispatched[x].operationID != k || StepOf(s.dispatched[x].kind) != n
    {
      assert Durable(s.j, s.dispatched[x]);
    }
  }

  lemma DispatchShape(s: System, c: ID, o: Oracle)
    requires c in s.coordinators && s.coordinators[c].pc.Dispatching? && s.coordinators[c].pc.f.n <= 5
    ensures var co, s' := s.coordinators[c], TickStep(s, c, o);
            && s'.j == s.j && c in s'.coordinators
            && s'.coordinators == Goto(s, c, s'.coordinators[c].pc).coordinators
            && Weaker(co.pc, s'.coordinators[c].pc)
            && (s'.dispatched == s.dispatched ||
                exists kind :: StepOf(kind) == co.pc.f.n &&
                               s'.dispatched == Log(s, kind, co.operationID, co.pc.f.a.stepID).dispatched)
  {
    hide MaintenanceConfirmed, NewRecord, LoopHead, PrepareNext, CheckStep, StopStep, AfterFailedCreate, CreateStep,
      InspectStep, Perform;
  }

  lemma DispatchIsSafe(s: System, c: ID, o: Oracle)
    requires Safe(s) && c in s.coordinators && s.coordinators[c].pc.Dispatching?
    ensures Safe(TickStep(s, c, o))
  {
    hide Safe, Quiet, Knows, TickStep, Weaker;
    var co := s.coordinators[c];
    var s' := TickStep(s, c, o);
    KnowledgeOf(s, c);
    FrameIsBounded(s.j, co);
    DispatchShape(s, c, o);
    var next := s'.coordinators[c].pc;
    if s'.dispatched == s.dispatched {
      QuietGoto(s, c, next, s');
      QuietIsSafe(s, s', c);
    } else {
      WeakerIsKnown(s.j, co, next);
      NotDispatchingIfWeaker(co.pc, next);
      var kind :| StepOf(kind) == co.pc.f.n &&
                  s'.dispatched == Log(s, kind, co.operationID, co.pc.f.a.stepID).dispatched;
      LoggedOnce(s, s', c, kind);
    }
  }

  lemma TouchedByHolder(j: Journal, co: Coordinator)
    requires Knows(j, co) && co.pc.Dispatching?
    ensures At(j, co.operationID, co.pc.f.n, co.pc.f.a.stepID) && Touched(j, co.operationID, co.pc.f.n)
  {
  }

  lemma LoggedOnce(s: System, s': System, c: ID, kind: External)
    requires Safe(s) && c in s.coordinators && s.coordinators[c].pc.Dispatching? && s'.j == s.j
    requires c in s'.coordinators && s'.coordinators == s.coordinators[c := s'.coordinators[c]]
    requires !s'.coordinators[c].pc.Dispatching? && Knows(s'.j, s'.coordinators[c])
    requires var co := s.coordinators[c];
             StepOf(kind) == co.pc.f.n && s'.dispatched == Log(s, kind, co.operationID, co.pc.f.a.stepID).dispatched
    ensures Safe(s')
  {
    hide Consistent, Knows;
    var co := s.coordinators[c];
    KnowledgeOf(s, c);
    TouchedByHolder(s.j, co);
    assert forall x :: 0 <= x < |s.dispatched| ==> s'.dispatched[x] == s.dispatched[x];
    forall d | d in s'.coordinators && s'.coordinators[d].pc.Dispatching?
      ensures !Logged(s'.dispatched, s'.coordinators[d].operationID, s'.coordinators[d].pc.f.n)
    {
      assert d in s.coordinators && s'.coordinators[d] == s.coordinators[d] && d != c;
      assert !MayDispatch(s.coordinators[d], co.operationID, co.pc.f.n);
    }
  }

  // ---- All interleavings ----------------------------------------------------------------

  lemma TickIsSafe(s: System, c: ID, o: Oracle)
    requires Safe(s) && c in s.coordinators
    ensures Safe(TickStep(s, c, o))
  {
    hide Safe, Quiet, TickStep, StoresPhase;
    var pc := s.coordinators[c].pc;
    if pc.Marking? { MarkIsSafe(s, c, o); }
    else if pc.Dispatching? { DispatchIsSafe(s, c, o); }
    else if pc.Halted? || pc.Finished? { StoppedStays(s, c, o); }
    else {
      if pc.Start? || pc.Loaded? { StartIsQuiet(s, c, o); }
      else if pc.Loop? { LoopIsQuiet(s, c, o); }
      else if pc.PreparingStep? { PrepareIsQuiet(s, c, o); }
      else if pc.Checking? || pc.AwaitingStop? || pc.CreateFailed? { ObservationIsQuiet(s, c, o); }
      else if pc.Claiming? || pc.Chosen? || pc.MarkingUnknown? { TransitionIsQuiet(s, c, o); }
      else if pc.Inspecting? { InspectIsQuiet(s, c, o); }
      else if pc.Creating? {
        if pc.phase.Completing? { CompletionIsQuiet(s, c, o); }
        else if StoresPhase(pc.phase) { CreateInStoreIsQuiet(s, c, o); }
        else { CreateOnDiskIsQuiet(s, c, o); }
      }
      else { RecordIsQuiet(s, c, o); }
      QuietIsSafe(s, TickStep(s, c, o), c);
    }
  }

  lemma StoppedStays(s: System, c: ID, o: Oracle)
    requires c in s.coordinators && (s.coordinators[c].pc.Halted? || s.coordinators[c].pc.Finished?)
    ensures TickStep(s, c, o) == s
  {
  }

  lemma SpawnIsQuiet(s: System, c: ID, co: Coordinator)
    requires Safe(s) && (co.pc.Start? || co.pc.Halted? || (co.pc.Inspecting? && co.pc.purpose.Standalone?))
    ensures Quiet(s, s.(coordinators := s.coordinators[c := co]), c)
  {
    hide Safe, Consistent, StepGood, Bound, At;
    assert Consistent(s.j) by { ConsistentOf(s); }
    UnchangedIsGood(s.j);
  }

  lemma ConsistentOf(s: System)
    requires Safe(s)
    ensures Consistent(s.j)
  {
  }

  lemma NextIsSafe(s: System, action: Action)
    requires Safe(s)
    ensures Safe(Next(s, action))
  {
    hide Safe, Quiet, TickStep, Apply;
    match action
    case Spawn(c, operationID, enrollment) =>
      if Free(s, c) {
        SpawnIsQuiet(s, c, Coordinator(operationID, enrollment, Start));
        QuietIsSafe(s, Next(s, action), c);
      }
    case SpawnInspect(c, id, enrollment) =>
      if Free(s, c) {
        SpawnIsQuiet(s, c, Coordinator("", enrollment, Inspecting(Standalone, id, ReadRecord)));
        QuietIsSafe(s, Next(s, action), c);
      }
    case Crash(c) =>
      if c in s.coordinators && Live(s.coordinators[c].pc) {
        SpawnIsQuiet(s, c, s.coordinators[c].(pc := Halted));
        QuietIsSafe(s, Next(s, action), c);
      }
    case Tick(c, o) => if c in s.coordinators { TickIsSafe(s, c, o); }
    case Client(call) => ClientIsSafe(s, call);
    case Tamper(name, bytes) => FilesDoNotMatter(s, Next(s, action));
  }

  lemma FilesDoNotMatter(s: System, s': System)
    requires Safe(s) && s'.j == s.j && s'.coordinators == s.coordinators && s'.dispatched == s.dispatched
    ensures Safe(s')
  {
  }

  lemma InitialIsSafe(digests: Digests)
    ensures Safe(Initial(digests))
  {
    EmptyIsConsistent(digests);
  }

  lemma {:induction false} RunIsSafe(digests: Digests, actions: seq<Action>)
    ensures Safe(Run(Initial(digests), actions))
  {
    hide Safe, Next;
    if actions == [] {
      InitialIsSafe(digests);
    } else {
      RunIsSafe(digests, actions[..|actions| - 1]);
      NextIsSafe(Run(Initial(digests), actions[..|actions| - 1]), actions[|actions| - 1]);
    }
  }

  /** No operation closes admission, stops the server or creates its backup twice. */
  lemma ExternalActionsHappenAtMostOnce(digests: Digests, actions: seq<Action>, x: nat, y: nat)
    requires x < y < |Run(Initial(digests), actions).dispatched|
    ensures var log := Run(Initial(digests), actions).dispatched;
            log[x].kind == log[y].kind ==> log[x].operationID != log[y].operationID
  {
    hide Run;
    RunIsSafe(digests, actions);
    assert !SameAction(Run(Initial(digests), actions).dispatched[x], Run(Initial(digests), actions).dispatched[y]);
  }

  /** Whenever an external action has happened, its step is durable as possibly dispatched. */
  lemma DispatchIsDurableFirst(digests: Digests, actions: seq<Action>, x: nat)
    requires x < |Run(Initial(digests), actions).dispatched|
    ensures var s := Run(Initial(digests), actions);
            var d := s.dispatched[x];
            && d.operationID in s.j.operations
            && StepOf(d.kind) < |s.j.operations[d.operationID].payload.attempts|
            && s.j.operations[d.operationID].payload.attempts[StepOf(d.kind)].stepID == d.stepID
            && s.j.operations[d.operationID].payload.attempts[StepOf(d.kind)].dispatch != NotDispatched
  {
    hide Run;
    RunIsSafe(digests, actions);
    assert Durable(Run(Initial(digests), actions).j, Run(Initial(digests), actions).dispatched[x]);
  }
}
