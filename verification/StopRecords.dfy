/**
 What the journal says about a graceful stop, in every run: S03 is complete only with one piece of stop evidence,
 judged from an answer to this very request, after the stop was dispatched.
 */
module StopRecords {
  import opened Octets
  import opened Domain
  import opened Journal
  import opened JournalSafety
  import opened Workflow
  import opened AtMostOnce
  import opened Progress
  import opened BackupProtocol
  import opened BackupBinding
  import opened StepRecords

  predicate Stopped(op: Operation) {
    Completed(op, 3)
  }

  // ---- The program counters around the stop ------------------------------------------------------

  function RequestOf(co: Coordinator): StopRequest
    requires co.pc.AwaitingStop?
  {
    StopRequest(co.operationID, co.pc.f.a.stepID, co.pc.f.i.containerID, co.pc.f.i.expectedBootID, co.pc.at)
  }

  /** The answer to the stop as this tick judges it. */
  function JudgedBy(co: Coordinator, o: Oracle): StopEvidence
    requires co.pc.AwaitingStop?
  {
    JudgeStop(RequestOf(co), o.stop, o.now)
  }

  predicate RecordsStop(pc: Pc) {
    pc.Recording? && pc.f.n == 3
  }

  /** Where a coordinator waits for a stop it has dispatched, or is about to record one. */
  ghost predicate Arrives(s: System, s': System, c: ID, o: Oracle)
    requires c in s.coordinators
  {
    && c in s'.coordinators && s'.coordinators == Goto(s, c, s'.coordinators[c].pc).coordinators
    && s.dispatched <= s'.dispatched
    && var co, next := s.coordinators[c], s'.coordinators[c].pc;
    && (next.AwaitingStop? ==>
          && co.pc.Dispatching? && co.pc.f.n == 3 && next.f == co.pc.f && next.at == co.pc.at
          && s'.dispatched == s.dispatched + [Dispatch(GracefulStop, co.operationID, co.pc.f.a.stepID)])
    && (RecordsStop(next) ==>
          && co.pc.AwaitingStop? && next.f == co.pc.f && next.evidence.StopReady?
          && next.evidence.ready.stop == JudgedBy(co, o) && JudgedBy(co, o).state == StopConfirmed)
  }

  lemma ArrivesByStop(s: System, c: ID, o: Oracle)
    requires c in s.coordinators && s.coordinators[c].pc.AwaitingStop?
    ensures Arrives(s, TickStep(s, c, o), c, o)
  {
    hide LoopHead, PrepareNext, CheckStep, DispatchStep, AfterFailedCreate, CreateStep, InspectStep, Perform, JudgeStop;
  }

  lemma ArrivesByDispatch(s: System, c: ID, o: Oracle)
    requires c in s.coordinators && s.coordinators[c].pc.Dispatching?
    ensures Arrives(s, TickStep(s, c, o), c, o)
  {
    hide LoopHead, PrepareNext, CheckStep, StopStep, AfterFailedCreate, CreateStep, InspectStep, Perform,
      MaintenanceConfirmed, NewRecord, JudgeStop;
  }

  /** Neither waits for a stop nor records one. */
  predicate Elsewhere(pc: Pc) {
    !pc.AwaitingStop? && !RecordsStop(pc)
  }

  lemma ArrivesByMoving(s: System, s': System, c: ID, o: Oracle, pc: Pc)
    requires c in s.coordinators && Elsewhere(pc)
    requires s'.coordinators == Goto(s, c, pc).coordinators && s'.dispatched == s.dispatched
    ensures Arrives(s, s', c, o)
  {
    hide JudgedBy;
  }

  lemma ArrivesByCall(s: System, c: ID, o: Oracle, call: Call, lost: bool, ok: Pc, failed: Pc)
    requires c in s.coordinators && Elsewhere(ok) && Elsewhere(failed)
    ensures Arrives(s, Perform(s, c, call, lost, ok, failed), c, o)
  {
    hide Commit, Arrives, Elsewhere;
    ArrivesByMoving(s, Perform(s, c, call, lost, ok, failed), c, o,
                    if Commit(s.j, call).Ok? && !lost then ok else failed);
  }

  lemma AsideIsElsewhere(pc: Pc)
    requires Aside(pc)
    ensures Elsewhere(pc)
  {
  }

  lemma ArrivesInCreate(s: System, c: ID, o: Oracle)
    requires c in s.coordinators && (s.coordinators[c].pc.Creating? || s.coordinators[c].pc.Inspecting?)
    ensures Arrives(s, TickStep(s, c, o), c, o)
  {
    hide Arrives, Elsewhere, Aside, LoopHead, PrepareNext, CheckStep, DispatchStep, StopStep, AfterFailedCreate,
      CreateStep, InspectStep, Perform;
    var pc := s.coordinators[c].pc;
    if pc.Creating? { CreateStaysAside(s, c, pc.f, pc.r, pc.phase, o); }
    else { InspectStaysAside(s, c, pc.purpose, pc.id, pc.stage, o); }
    AsideIsElsewhere(TickStep(s, c, o).coordinators[c].pc);
    ArrivesByMoving(s, TickStep(s, c, o), c, o, TickStep(s, c, o).coordinators[c].pc);
  }

  lemma ArrivesByReading(s: System, c: ID, o: Oracle)
    requires c in s.coordinators
    requires var pc := s.coordinators[c].pc;
             pc.Start? || pc.Loaded? || pc.Checking? || pc.CreateFailed? || !Live(pc)
    ensures Arrives(s, TickStep(s, c, o), c, o)
  {
    hide Arrives, LoopHead, PrepareNext, DispatchStep, StopStep, CreateStep, InspectStep, Perform, CanContinue,
      Offline, ValidateSafety, SafeBefore;
    ArrivesByMoving(s, TickStep(s, c, o), c, o, TickStep(s, c, o).coordinators[c].pc);
  }

  lemma ArrivesInLoop(s: System, c: ID, o: Oracle)
    requires c in s.coordinators && (s.coordinators[c].pc.Loop? || s.coordinators[c].pc.PreparingStep?)
    ensures Arrives(s, TickStep(s, c, o), c, o)
  {
    hide Arrives, CheckStep, DispatchStep, StopStep, AfterFailedCreate, CreateStep, InspectStep, Perform, PrepareStep;
    ArrivesByMoving(s, TickStep(s, c, o), c, o, TickStep(s, c, o).coordinators[c].pc);
  }

  lemma ArrivesElsewhere(s: System, c: ID, o: Oracle)
    requires c in s.coordinators
    requires var pc := s.coordinators[c].pc;
             || pc.Claiming? || pc.Chosen? || pc.Marking? || pc.Recording? || pc.RecordingOther?
             || pc.RecordingUnattributed? || pc.MarkingUnknown? || pc.GivingUp?
    ensures Arrives(s, TickStep(s, c, o), c, o)
  {
    hide Arrives, LoopHead, PrepareNext, CheckStep, DispatchStep, StopStep, AfterFailedCreate, CreateStep,
      InspectStep, Perform, Texts;
    var co := s.coordinators[c];
    if CallOf(co, o).Some? {
      var call := CallOf(co, o).value;
      match co.pc
      case Claiming(i) => ArrivesByCall(s, c, o, call, o.lost, Loop(i, 0), Halted);
      case Chosen(f) => ArrivesByCall(s, c, o, call, o.lost, Checking(f), Halted);
      case Marking(f, before, ready) =>
        ArrivesByCall(s, c, o, call, o.lost, Dispatching(f, o.now, before, ready), Halted);
      case Recording(f, _) => ArrivesByCall(s, c, o, call, o.lost, Loop(f.i, f.n + 1), Halted);
      case RecordingUnattributed(_, _) => ArrivesByCall(s, c, o, call, o.lost, MarkingUnknown, Halted);
      case _ => ArrivesByCall(s, c, o, call, o.lost, Halted, Halted);
    } else {
      ArrivesByMoving(s, TickStep(s, c, o), c, o, Checking(co.pc.f));
    }
  }

  lemma TickArrives(s: System, c: ID, o: Oracle)
    requires c in s.coordinators
    ensures Arrives(s, TickStep(s, c, o), c, o)
  {
    hide Arrives, TickStep;
    var pc := s.coordinators[c].pc;
    if pc.AwaitingStop? { ArrivesByStop(s, c, o); }
    else if pc.Dispatching? { ArrivesByDispatch(s, c, o); }
    else if pc.Creating? || pc.Inspecting? { ArrivesInCreate(s, c, o); }
    else if pc.Loop? || pc.PreparingStep? { ArrivesInLoop(s, c, o); }
    else if pc.Start? || pc.Loaded? || pc.Checking? || pc.CreateFailed? || !Live(pc) { ArrivesByReading(s, c, o); }
    else { ArrivesElsewhere(s, c, o); }
  }

  // ---- The invariant ---------------------------------------------------------------------------

  ghost predicate Sent(dispatched: seq<Dispatch>, k: ID, stepID: ID) {
    Dispatch(GracefulStop, k, stepID) in dispatched
  }

  /** The evidence speaks of the server that the frozen intent of k names. */
  ghost predicate Fits(j: Journal, k: ID, stop: StopEvidence) {
    && k in j.operations && j.operations[k].intentID in j.intents
    && var i := j.intents[j.operations[k].intentID].payload.intent;
       stop.containerID == i.containerID && stop.bootID == i.expectedBootID
  }

  /** One acceptable piece of stop evidence, for this operation, this step and its server, after the dispatch. */
  ghost predicate Vouched(s: System, accepted: iset<StopEvidence>, k: ID, stepID: ID, evidence: seq<Evidence>) {
    && |evidence| == 1 && evidence[0].StopReady?
    && var stop := evidence[0].ready.stop;
    && stop in accepted && stop.operationID == k && stop.stepID == stepID && Fits(s.j, k, stop)
    && Sent(s.dispatched, k, stepID)
  }

  ghost predicate RecordVouched(s: System, accepted: iset<StopEvidence>, k: ID)
    requires k in s.j.operations
  {
    var op := s.j.operations[k].payload;
    Stopped(op) ==> Vouched(s, accepted, k, op.attempts[3].stepID, op.attempts[3].evidence)
  }

  ghost predicate PlaceVouched(s: System, accepted: iset<StopEvidence>, co: Coordinator) {
    && (co.pc.AwaitingStop? ==> co.pc.f.n == 3 && Sent(s.dispatched, co.operationID, co.pc.f.a.stepID))
    && (RecordsStop(co.pc) ==> Vouched(s, accepted, co.operationID, co.pc.f.a.stepID, [co.pc.evidence]))
  }

  ghost predicate StopsVouched(s: System, accepted: iset<StopEvidence>) {
    && (forall k :: k in s.j.operations ==> RecordVouched(s, accepted, k))
    && (forall c :: c in s.coordinators ==> PlaceVouched(s, accepted, s.coordinators[c]))
  }

  lemma FitsSurvives(j: Journal, j': Journal, k: ID, stop: StopEvidence)
    requires Consistent(j) && StepGood(j, j') && Fits(j, k, stop)
    ensures Fits(j', k, stop)
  {
    hide Consistent, OperationEvolves;
    LoadedSurvives(j, j', k);
    assert IntentEvolves(j.intents[j.operations[k].intentID], j'.intents[j.operations[k].intentID]);
  }

  lemma VouchedSurvives(s: System, s': System, accepted: iset<StopEvidence>, accepted': iset<StopEvidence>, k: ID,
                        stepID: ID, evidence: seq<Evidence>)
    requires Consistent(s.j) && StepGood(s.j, s'.j) && s.dispatched <= s'.dispatched && accepted <= accepted'
    requires Vouched(s, accepted, k, stepID, evidence)
    ensures Vouched(s', accepted', k, stepID, evidence)
  {
    hide Consistent, StepGood, Fits;
    FitsSurvives(s.j, s'.j, k, evidence[0].ready.stop);
  }

  lemma PlaceSurvives(s: System, s': System, accepted: iset<StopEvidence>, accepted': iset<StopEvidence>,
                      co: Coordinator)
    requires Consistent(s.j) && StepGood(s.j, s'.j) && s.dispatched <= s'.dispatched && accepted <= accepted'
    requires PlaceVouched(s, accepted, co)
    ensures PlaceVouched(s', accepted', co)
  {
    hide Consistent, StepGood, Vouched;
    if RecordsStop(co.pc) {
      VouchedSurvives(s, s', accepted, accepted', co.operationID, co.pc.f.a.stepID, [co.pc.evidence]);
    }
  }

  /** The tick judges a stop confirmed. */
  predicate Confirms(s: System, action: Action) {
    && action.Tick? && action.c in s.coordinators && s.coordinators[action.c].pc.AwaitingStop?
    && JudgedBy(s.coordinators[action.c], action.o).state == StopConfirmed
  }

  lemma BoundFits(j: Journal, co: Coordinator, o: Oracle)
    requires Knows(j, co) && co.pc.AwaitingStop? && JudgedBy(co, o).state == StopConfirmed
    ensures Fits(j, co.operationID, JudgedBy(co, o))
    ensures JudgedBy(co, o).operationID == co.operationID && JudgedBy(co, o).stepID == co.pc.f.a.stepID
  {
  }

  /** The place a tick leads to. */
  lemma TickPlaceVouched(s: System, c: ID, o: Oracle, accepted: iset<StopEvidence>, accepted': iset<StopEvidence>)
    requires Orderly(s) && StopsVouched(s, accepted) && accepted <= accepted' && c in s.coordinators
    requires StepGood(s.j, TickStep(s, c, o).j)
    requires Confirms(s, Tick(c, o)) ==> JudgedBy(s.coordinators[c], o) in accepted'
    ensures var s' := TickStep(s, c, o); c in s'.coordinators && PlaceVouched(s', accepted', s'.coordinators[c])
  {
    hide Orderly, Consistent, StepGood, Aware, Knows, TickStep, JudgedBy, Fits;
    var s' := TickStep(s, c, o);
    TickArrives(s, c, o);
    AwarenessOf(s, c);
    var co := s.coordinators[c];
    assert PlaceVouched(s, accepted, co);
    if RecordsStop(s'.coordinators[c].pc) {
      BoundFits(s.j, co, o);
      FitsSurvives(s.j, s'.j, co.operationID, JudgedBy(co, o));
    }
  }

  lemma KeptRecord(s: System, s': System, accepted: iset<StopEvidence>, accepted': iset<StopEvidence>, k: ID)
    requires Consistent(s.j) && StepGood(s.j, s'.j) && s.dispatched <= s'.dispatched && accepted <= accepted'
    requires StopsVouched(s, accepted) && k in s.j.operations && k in s'.j.operations
    requires SameStep(s.j.operations[k].payload, s'.j.operations[k].payload, 3)
    ensures RecordVouched(s', accepted', k)
  {
    hide Consistent, StepGood, Vouched, PlaceVouched;
    assert RecordVouched(s, accepted, k);
    var a := s.j.operations[k].payload.attempts[3];
    VouchedSurvives(s, s', accepted, accepted', k, a.stepID, a.evidence);
  }

  lemma TickRecordVouched(s: System, c: ID, o: Oracle, accepted: iset<StopEvidence>, accepted': iset<StopEvidence>,
                          k: ID)
    requires Orderly(s) && StopsVouched(s, accepted) && accepted <= accepted' && c in s.coordinators
    requires StepGood(s.j, TickStep(s, c, o).j) && s.dispatched <= TickStep(s, c, o).dispatched
    requires k in TickStep(s, c, o).j.operations
    ensures RecordVouched(TickStep(s, c, o), accepted', k)
  {
    hide Orderly, Consistent, StepGood, TickStep, CallOf, Apply, Commit, Vouched, RecordsStep, SameStep, PlaceVouched;
    var s' := TickStep(s, c, o);
    ConsistentAndShaped(s);
    TickCalls(s, c, o);
    if Stopped(s'.j.operations[k].payload) {
      if CallOf(s.coordinators[c], o).Some? {
        var call := CallOf(s.coordinators[c], o).value;
        CallsAndStep(s.j, call, k, 3);
        if SameStep(s.j.operations[k].payload, s'.j.operations[k].payload, 3) {
          KeptRecord(s, s', accepted, accepted', k);
        } else {
          StepIsRecordedHere(s, c, o, k, 3, s'.j.operations[k].payload);
          PlaceIsVouched(s, accepted, c);
          VouchedSurvives(s, s', accepted, accepted', k, s.coordinators[c].pc.f.a.stepID,
                          [s.coordinators[c].pc.evidence]);
        }
      } else {
        SameIsSame(s.j.operations[k].payload);
        KeptRecord(s, s', accepted, accepted', k);
      }
    }
  }

  lemma PlaceIsVouched(s: System, accepted: iset<StopEvidence>, c: ID)
    requires StopsVouched(s, accepted) && c in s.coordinators && RecordsStop(s.coordinators[c].pc)
    ensures var co := s.coordinators[c]; Vouched(s, accepted, co.operationID, co.pc.f.a.stepID, [co.pc.evidence])
  {
    hide Vouched, RecordVouched;
    assert PlaceVouched(s, accepted, s.coordinators[c]);
  }

  lemma SameIsSame(op: Operation)
    requires Stopped(op)
    ensures SameStep(op, op, 3)
  {
  }

  lemma TickKeepsStops(s: System, c: ID, o: Oracle, accepted: iset<StopEvidence>, accepted': iset<StopEvidence>)
    requires Orderly(s) && StopsVouched(s, accepted) && accepted <= accepted' && c in s.coordinators
    requires Confirms(s, Tick(c, o)) ==> JudgedBy(s.coordinators[c], o) in accepted'
    ensures StopsVouched(TickStep(s, c, o), accepted')
  {
    hide Orderly, Consistent, StepGood, TickStep, RecordVouched, PlaceVouched, JudgedBy;
    var s' := TickStep(s, c, o);
    ConsistentAndShaped(s);
    NextIsGood(s, Tick(c, o));
    TickArrives(s, c, o);
    forall k | k in s'.j.operations ensures RecordVouched(s', accepted', k) {
      TickRecordVouched(s, c, o, accepted, accepted', k);
    }
    forall d | d in s'.coordinators ensures PlaceVouched(s', accepted', s'.coordinators[d]) {
      if d == c { TickPlaceVouched(s, c, o, accepted, accepted'); }
      else { PlaceSurvives(s, s', accepted, accepted', s.coordinators[d]); }
    }
  }

  lemma ClientKeepsStops(s: System, call: Call, accepted: iset<StopEvidence>, accepted': iset<StopEvidence>)
    requires Orderly(s) && StopsVouched(s, accepted) && accepted <= accepted' && OperatorCall(call)
    ensures StopsVouched(s.(j := Apply(s.j, call)), accepted')
  {
    hide Orderly, Consistent, StepGood, Apply, Commit, RecordVouched, PlaceVouched, RecordsStep, SameStep;
    var s' := s.(j := Apply(s.j, call));
    ConsistentAndShaped(s);
    CallGood(s.j, call);
    forall k | k in s'.j.operations ensures RecordVouched(s', accepted', k) {
      if Stopped(s'.j.operations[k].payload) {
        CallsAndStep(s.j, call, k, 3);
        NotARecord(s.j.operations[k].payload, s'.j.operations[k].payload, call, k, 3);
        KeptRecord(s, s', accepted, accepted', k);
      } else { NothingRecorded(s', accepted', k); }
    }
    forall d | d in s'.coordinators ensures PlaceVouched(s', accepted', s'.coordinators[d]) {
      PlaceSurvives(s, s', accepted, accepted', s.coordinators[d]);
    }
  }

  lemma NotARecord(op: Operation, next: Operation, call: Call, k: ID, n: nat)
    requires OperatorCall(call)
    ensures !RecordsStep(op, next, call, k, n)
  {
  }

  lemma NothingRecorded(s: System, accepted: iset<StopEvidence>, k: ID)
    requires k in s.j.operations && !Stopped(s.j.operations[k].payload)
    ensures RecordVouched(s, accepted, k)
  {
  }

  /** The journal and the log stay, and every new place is harmless. */
  lemma PlacesKeepStops(s: System, s': System, accepted: iset<StopEvidence>, accepted': iset<StopEvidence>)
    requires Orderly(s) && StopsVouched(s, accepted) && accepted <= accepted'
    requires s'.j == s.j && s'.dispatched == s.dispatched
    requires forall d :: d in s'.coordinators ==>
                           (d in s.coordinators && s'.coordinators[d] == s.coordinators[d]) ||
                             Elsewhere(s'.coordinators[d].pc)
    ensures StopsVouched(s', accepted')
  {
    hide Orderly, Consistent, StepGood, RecordVouched, Vouched, SameStep;
    ConsistentAndShaped(s);
    UnchangedIsGood(s.j);
    forall k | k in s'.j.operations ensures RecordVouched(s', accepted', k) {
      if Stopped(s.j.operations[k].payload) {
        SameIsSame(s.j.operations[k].payload);
        KeptRecord(s, s', accepted, accepted', k);
      } else { NothingRecorded(s', accepted', k); }
    }
    forall d | d in s'.coordinators ensures PlaceVouched(s', accepted', s'.coordinators[d]) {
      if d in s.coordinators && s'.coordinators[d] == s.coordinators[d] {
        PlaceSurvives(s, s', accepted, accepted', s.coordinators[d]);
      }
    }
  }

  /** Every action keeps the stops vouched for, if what it confirms is acceptable. */
  lemma NextKeepsStops(s: System, action: Action, accepted: iset<StopEvidence>, accepted': iset<StopEvidence>)
    requires Orderly(s) && StopsVouched(s, accepted) && accepted <= accepted' && Internal(action)
    requires Confirms(s, action) ==> JudgedBy(s.coordinators[action.c], action.o) in accepted'
    ensures StopsVouched(Next(s, action), accepted')
  {
    hide Orderly, TickStep, Apply, StopsVouched, JudgedBy;
    match action
    case Tick(c, o) =>
      if c in s.coordinators { TickKeepsStops(s, c, o, accepted, accepted'); }
      else { PlacesKeepStops(s, s, accepted, accepted'); }
    case Client(call) => ClientKeepsStops(s, call, accepted, accepted');
    case _ => PlacesKeepStops(s, Next(s, action), accepted, accepted');
  }

  // ---- Runs ----------------------------------------------------------------------------------------

  /** Confirmed when it was accepted, and still confirmed where S04 and S05 read it. */
  ghost function Confirmed(): iset<StopEvidence> {
    iset stop: StopEvidence | stop.state == StopConfirmed &&
      ClassifyStop(Acknowledged, stop, stop.observedAt) == StopConfirmed
  }

  lemma JudgedIsConfirmed(request: StopRequest, e: StopEvidence, now: Time)
    requires JudgeStop(request, e, now).state == StopConfirmed
    ensures JudgeStop(request, e, now) in Confirmed()
  {
  }

  lemma {:induction false} RunKeepsStops(digests: Digests, actions: seq<Action>)
    requires AllInternal(actions)
    ensures StopsVouched(Run(Initial(digests), actions), Confirmed())
  {
    if actions == [] {
    } else {
      hide StopsVouched, Next, Orderly, Internal, Confirmed, JudgeStop;
      var before := actions[..|actions| - 1];
      var s, action := Run(Initial(digests), before), actions[|actions| - 1];
      RunKeepsStops(digests, before);
      RunIsOrderly(digests, before);
      if Confirms(s, action) { JudgedIsConfirmed(RequestOf(s.coordinators[action.c]), action.o.stop, action.o.now); }
      NextKeepsStops(s, action, Confirmed(), Confirmed());
    }
  }

  /**
   In every run of coordinators and operators: a complete S03 holds exactly one piece of stop evidence, for this
   operation, this step and the server its intent names, confirmed then and still confirmed where S04 and S05
   read it, and its stop was dispatched. Before that the server was up, empty and closed under maintenance.
   */
  lemma CompleteStopIsConfirmed(digests: Digests, actions: seq<Action>, k: ID)
    requires AllInternal(actions) && k in Run(Initial(digests), actions).j.operations
    requires Stopped(Run(Initial(digests), actions).j.operations[k].payload)
    ensures var s := Run(Initial(digests), actions);
            var a := s.j.operations[k].payload.attempts[3];
            && |a.evidence| == 1 && a.evidence[0].StopReady?
            && var stop := a.evidence[0].ready.stop;
            && stop.operationID == k && stop.stepID == a.stepID && Fits(s.j, k, stop)
            && stop.state == StopConfirmed && ClassifyStop(Acknowledged, stop, stop.observedAt) == StopConfirmed
            && Dispatch(GracefulStop, k, a.stepID) in s.dispatched
            && var before := a.evidence[0].ready.beforeStop;
            && before.players == 0 && before.admissionClosed && before.maintenance && !before.processStopped
            && before.noConflictingWriter && before.rootExists
  {
    hide Run, Fits, CleanStop;
    CompleteStepsHaveEvidence(digests, actions, k, 3);
    RunKeepsStops(digests, actions);
    assert RecordVouched(Run(Initial(digests), actions), Confirmed(), k);
  }
}
