/**
 The machine does reach its ends: one approved intent driven through S00-S05 to a VALID backup, to success,
 and to the two ways in which a complete S05 is undone again.
 */
module Reachability {
  import opened Octets
  import opened Domain
  import opened Journal
  import opened JournalSafety
  import opened Workflow
  import opened AtMostOnce
  import opened Progress
  import opened BackupProtocol
  import opened BackupBinding
  import opened SoleRun

  /**
   One deployment, one intent, one operation, a moment at which everything happens, and the coordinators that
   stand still meanwhile.
   */
  datatype World = World(
    digests: Digests, e: Enrollment, i: ChangeIntent, k: ID, now: Time, archive: Bytes, others: map<ID, Coordinator>)

  const NAMES := ["step-0", "step-1", "step-2", "step-3", "step-4", "step-5"]

  /** The intent fits the deployment, its deadlines are ahead, and digests look like digests. */
  ghost predicate Workable(w: World) {
    && DigestMatches(w.digests, w.i) && w.i.steps == FIXED_STEPS
    && w.i.enrollmentID == w.e.enrollmentID && w.i.deploymentGeneration == w.e.deploymentGeneration
    && w.i.containerID == w.e.containerID && w.i.paperTuple == w.e.paperTuple
    && w.i.policyDigest == w.e.policyDigest && w.i.policyRevision == w.e.policyRevision
    && w.e.targetID != "" && w.e.enrollmentID != "" && w.e.containerID != "" && w.e.dataRootIdentity != ""
    && w.i.inventoryDigest != "" && w.i.configDigest != "" && w.i.fromArtifactID != "" && w.i.fromSHA256 != ""
    && w.i.expectedBootID != "" && w.k != ""
    && 0 < w.now < w.i.approvalDeadline && w.now < w.i.startBefore && w.i.executionBudgetSeconds == 900
    && w.i.backupRecipeDigest == w.digests.recipe
    && IsHexDigest(w.digests.content(w.archive)) && |w.archive| > 0
  }

  // ---- Evidence ---------------------------------------------------------------------------

  function Seen(w: World, stopped: bool): SafetyObservation {
    SafetyObservation(true, w.now, w.e, w.i.expectedBootID, w.i.inventoryDigest, w.i.configDigest, w.i.fromArtifactID,
                      w.i.fromSHA256, true, true, 0, stopped, true, true, ["seen"])
  }

  function ConfirmedStop(w: World): StopEvidence {
    StopEvidence(StopConfirmed, w.k, NAMES[3], w.i.containerID, w.i.expectedBootID, w.now, w.now, w.now, true, false,
                 0, false,
                 true, true, Correlated, ["stopped"])
  }

  function Ready(w: World): ReadyEvidence {
    ReadyEvidence(Seen(w, false), Seen(w, true), ConfirmedStop(w))
  }

  /** The world answers kindly, except that an answer of the store may be lost or a read may fail. */
  function Kind(w: World, n: nat, lost: bool, fail: bool): Oracle {
    Oracle(w.now, if n < 6 then NAMES[n] else "", lost, fail, Seen(w, n >= 4),
           MaintenanceReceipt(w.k, NAMES[2], w.now, ["closed"]),
           Seen(w, false), ConfirmedStop(w), w.archive, true, LocalPaper)
  }

  lemma SeenIsSafe(w: World, stopped: bool)
    requires Workable(w)
    ensures ValidateSafety(w.digests, Seen(w, stopped), w.e, w.i, w.now).Ok?
  {
  }

  // ---- The journal along the way ---------------------------------------------------------------

  predicate InSequence(attempts: seq<StepAttempt>) {
    |attempts| <= 6 &&
    forall m :: 0 <= m < |attempts| ==> attempts[m].stepID == NAMES[m] && attempts[m].kind == FIXED_STEPS[m]
  }

  /** The operation as someone read it. */
  ghost predicate Reads(op: Operation, w: World, attempts: seq<StepAttempt>, status: OperationStatus) {
    && op.operationID == w.k && op.intentID == w.i.intentID && op.intentDigest == w.i.intentDigest
    && op.enrollmentID == w.i.enrollmentID && !op.released && op.status == status && op.attempts == attempts
  }

  ghost predicate Consumed(j: Journal, w: World) {
    && j.digests == w.digests && w.i.intentID in j.intents
    && j.intents[w.i.intentID].status == IntentConsumed
    && j.intents[w.i.intentID].payload.status == IntentConsumed && j.intents[w.i.intentID].payload.intent == w.i
  }

  ghost predicate Vacant(steps: Steps, n: nat) {
    forall m :: n <= m < 6 ==> NAMES[m] !in steps
  }

  /** What the run has produced so far. */
  datatype Scene = Scene(
    attempts: seq<StepAttempt>, status: OperationStatus, backups: Backups, files: map<FileName, Bytes>)

  /** The journal holds the consumed intent, its operation and the backups of the scene. */
  ghost predicate Journaled(j: Journal, w: World, x: Scene) {
    && Consumed(j, w) && j.backups == x.backups && InSequence(x.attempts) && Vacant(j.steps, |x.attempts|)
    && w.k in j.operations && Reads(j.operations[w.k].payload, w, x.attempts, x.status)
  }

  lemma NamesDiffer(attempts: seq<StepAttempt>, n: nat, m: nat)
    requires InSequence(attempts) && n < |attempts|
    ensures attempts[n].stepID == NAMES[n]
    ensures m < |attempts| && m != n ==> attempts[m].stepID != NAMES[n]
  {
  }

  lemma FindNamed(attempts: seq<StepAttempt>, n: nat)
    requires InSequence(attempts) && n < |attempts|
    ensures FindStep(attempts, NAMES[n]) == n
  {
    hide FindStep;
    NamesDiffer(attempts, n, FindStep(attempts, NAMES[n]));
  }

  lemma NamesOf(attempts: seq<StepAttempt>)
    requires InSequence(attempts)
    ensures |attempts| <= 6
  {
  }

  lemma NamedLonger(attempts: seq<StepAttempt>, a: StepAttempt)
    requires InSequence(attempts) && |attempts| < 6 && a.stepID == NAMES[|attempts|] &&
             a.kind == FIXED_STEPS[|attempts|]
    ensures InSequence(attempts + [a])
  {
  }

  lemma NamedUpdated(attempts: seq<StepAttempt>, n: nat, a: StepAttempt)
    requires InSequence(attempts) && n < |attempts| && a.stepID == attempts[n].stepID && a.kind == attempts[n].kind
    ensures InSequence(attempts[n := a])
  {
    var attempts' := attempts[n := a];
    assert forall m :: 0 <= m < |attempts| && m != n ==> attempts'[m] == attempts[m];
  }

  predicate Busy(status: OperationStatus) {
    status == Preparing || status == Executing
  }

  lemma PrepareWorks(j: Journal, w: World, x: Scene) returns (a: StepAttempt)
    requires Workable(w) && Journaled(j, w, x) && Busy(x.status) && |x.attempts| < 6 && AllComplete(x.attempts)
    ensures a.stepID == NAMES[|x.attempts|] && a.kind == FIXED_STEPS[|x.attempts|] && a.Untouched()
    ensures a.preparedAt == w.now
    ensures var r := PrepareStep(j, w.k, FIXED_STEPS[|x.attempts|], w.now, NAMES[|x.attempts|]);
            r.Ok? && r.value.1 == a && Journaled(r.value.0, w, x.(attempts := x.attempts + [a]))
  {
    hide NextAttemptNo, IsHexDigest, InSequence;
    NamesOf(x.attempts);
    a := PrepareStep(j, w.k, FIXED_STEPS[|x.attempts|], w.now, NAMES[|x.attempts|]).value.1;
    NamedLonger(x.attempts, a);
  }

  lemma SaveWorks(j: Journal, w: World, x: Scene, n: nat, a: StepAttempt, next: OperationStatus, lastError: string)
    requires Journaled(j, w, x) && n < |x.attempts| && a.stepID == x.attempts[n].stepID && a.kind == x.attempts[n].kind
    ensures var r := SaveAttempt(j, w.k, j.operations[w.k].payload, n, a, next, lastError, w.now);
            r.Ok? && Journaled(r.value, w, x.(attempts := x.attempts[n := a], status := next))
  {
    hide InSequence;
    NamedUpdated(x.attempts, n, a);
  }

  lemma MarkWorks(j: Journal, w: World, x: Scene, n: nat) returns (a: StepAttempt)
    requires Journaled(j, w, x) && Busy(x.status) && n < |x.attempts| && x.attempts[n].Untouched()
    ensures Pending(a) && a.kind == x.attempts[n].kind && a.stepID == x.attempts[n].stepID
    ensures a.preparedAt == x.attempts[n].preparedAt
    ensures var r := Commit(j, MarkPossible(w.k, NAMES[n], w.now));
            r.Ok? && Journaled(r.value, w, x.(attempts := x.attempts[n := a]))
  {
    hide FindStep, SaveAttempt, Vacant;
    FindNamed(x.attempts, n);
    a := x.attempts[n].(dispatch := DispatchPossible, effect := EffectUnknown, attribution := Unattributed,
                        updatedAt := w.now);
    SaveWorks(j, w, x, n, a, x.status, j.operations[w.k].payload.lastError);
  }

  lemma RecordWorks(j: Journal, w: World, x: Scene, n: nat, effect: EffectState, attribution: Attribution,
                    evidence: Evidence) returns (a: StepAttempt)
    requires Journaled(j, w, x) && n < |x.attempts| && x.attempts[n].dispatch != NotDispatched
    requires !effect.UnrecognizedEffect?
    ensures a == Observed(x.attempts[n], effect, attribution, [evidence], w.now)
    ensures var r := Commit(j, Record(w.k, NAMES[n], effect, attribution, [evidence], w.now));
            r.Ok? && Journaled(r.value, w, x.(attempts := x.attempts[n := a], status := StatusAfter(x.status, effect)))
  {
    hide FindStep, SaveAttempt, Vacant;
    FindNamed(x.attempts, n);
    a := Observed(x.attempts[n], effect, attribution, [evidence], w.now);
    var op := j.operations[w.k].payload;
    SaveWorks(j, w, x, n, a, StatusAfter(x.status, effect), ErrorAfter(op.lastError, effect));
  }

  lemma TransitionWorks(j: Journal, w: World, x: Scene, to: OperationStatus)
    requires Journaled(j, w, x) && CanTransition(x.status, to) && Busy(to)
    ensures var r := Commit(j, Transition(w.k, to, NotStarted, false, w.now));
            r.Ok? && Journaled(r.value, w, x.(status := to))
  {
    hide InSequence, Vacant;
  }

  // ---- Runs ------------------------------------------------------------------------------------------

  /** A run of coordinators and operators leads here; if there are no others, nobody else ever ran the operation. */
  ghost predicate Reached(w: World, s: System) {
    exists actions :: AllInternal(actions) && Run(Initial(w.digests), actions) == s &&
                      (w.others == map[] ==> SoleThroughout(w.digests, actions, w.k))
  }

  ghost predicate Apart(w: World, s: System, c: ID) {
    c in s.coordinators && s.coordinators == w.others[c := s.coordinators[c]]
  }

  lemma ApartIsSole(w: World, s: System, c: ID)
    requires w.others == map[] && Apart(w, s, c)
    ensures Sole(s, w.k)
  {
  }

  lemma ReachedNext(w: World, s: System, action: Action)
    requires Reached(w, s) && Internal(action) && (w.others == map[] ==> Sole(Next(s, action), w.k))
    ensures Reached(w, Next(s, action))
  {
    hide Next, Sole;
    var actions :| AllInternal(actions) && Run(Initial(w.digests), actions) == s &&
                   (w.others == map[] ==> SoleThroughout(w.digests, actions, w.k));
    var longer := actions + [action];
    assert longer[..|actions|] == actions;
    assert AllInternal(longer);
    if w.others == map[] { SoleLonger(w, actions, action); }
  }

  lemma SoleLonger(w: World, actions: seq<Action>, action: Action)
    requires SoleThroughout(w.digests, actions, w.k) && Sole(Run(Initial(w.digests), actions + [action]), w.k)
    ensures SoleThroughout(w.digests, actions + [action], w.k)
  {
    hide Sole, Run;
    var longer := actions + [action];
    forall x | 0 <= x <= |longer| ensures Sole(Run(Initial(w.digests), longer[..x]), w.k) {
      if x <= |actions| { assert longer[..x] == actions[..x]; } else { assert longer[..x] == longer; }
    }
  }

  /** Coordinator c can be here, in this scene. */
  ghost predicate Stands(s: System, w: World, c: ID, pc: Pc, x: Scene) {
    && Reached(w, s) && Apart(w, s, c)
    && c in s.coordinators && s.coordinators[c] == Coordinator(w.k, w.e, pc)
    && Journaled(s.j, w, x) && s.files == x.files
  }

  ghost function Later(s: System, w: World, c: ID, n: nat, lost: bool, fail: bool): System {
    Next(s, Tick(c, Kind(w, n, lost, fail)))
  }

  /** Wherever a tick of c takes it. */
  lemma Lands(s: System, w: World, c: ID, o: Oracle, pc: Pc, x: Scene, x': Scene)
    requires c in s.coordinators && Stands(s, w, c, s.coordinators[c].pc, x)
    requires var s' := TickStep(s, c, o);
             s'.coordinators == Goto(s, c, pc).coordinators && Journaled(s'.j, w, x') && s'.files == x'.files
    ensures Stands(Next(s, Tick(c, o)), w, c, pc, x')
  {
    hide Reached, Journaled, TickStep, Sole;
    if w.others == map[] { ApartIsSole(w, Next(s, Tick(c, o)), c); }
    ReachedNext(w, s, Tick(c, o));
  }

  /** A tick of c that only reads. */
  lemma Moves(s: System, w: World, c: ID, n: nat, lost: bool, fail: bool, x: Scene, pc: Pc, files: map<FileName, Bytes>)
    requires c in s.coordinators && Stands(s, w, c, s.coordinators[c].pc, x)
    requires var s' := TickStep(s, c, Kind(w, n, lost, fail));
             s'.j == s.j && s'.files == files && s'.coordinators == Goto(s, c, pc).coordinators
    ensures Stands(Later(s, w, c, n, lost, fail), w, c, pc, x.(files := files))
  {
    hide Reached, Journaled, Apart, TickStep;
    SceneOfFiles(s.j, w, x, files);
    Lands(s, w, c, Kind(w, n, lost, fail), pc, x, x.(files := files));
  }

  lemma SceneOfFiles(j: Journal, w: World, x: Scene, files: map<FileName, Bytes>)
    requires Journaled(j, w, x)
    ensures Journaled(j, w, x.(files := files))
  {
    hide Reads, Consumed, InSequence, Vacant;
  }

  /** A tick of c that calls the store, which commits. */
  lemma Commits(s: System, w: World, c: ID, n: nat, lost: bool, x: Scene, call: Call, ok: Pc, failed: Pc, x': Scene)
    requires c in s.coordinators && Stands(s, w, c, s.coordinators[c].pc, x) && x'.files == x.files
    requires Commit(s.j, call).Ok? && Journaled(Commit(s.j, call).value, w, x')
    requires TickStep(s, c, Kind(w, n, lost, false)) == Perform(s, c, call, lost, ok, failed)
    ensures Stands(Later(s, w, c, n, lost, false), w, c, if lost then failed else ok, x')
  {
    hide Reached, Journaled, Apart, TickStep, Commit;
    Lands(s, w, c, Kind(w, n, lost, false), if lost then failed else ok, x, x');
  }

  // ---- One coordinator, tick by tick --------------------------------------------------------------

  /** What the step has read of its operation before its own attempt was added. */
  ghost predicate FrameReads(f: Frame, w: World, before: seq<StepAttempt>, status: OperationStatus) {
    f.i == w.i && f.n == |before| <= 5 && f.a.stepID == NAMES[|before|] && Reads(f.op, w, before, status)
  }

  /** All attempts are complete, and S03 keeps the stop evidence. */
  ghost predicate DoneSoFar(w: World, attempts: seq<StepAttempt>) {
    && AllComplete(attempts) && (attempts != [] ==> attempts[0].preparedAt == w.now)
    && (|attempts| > 3 ==> attempts[3].evidence == [StopReady(Ready(w))])
  }

  lemma LoopPrepares(s: System, w: World, c: ID, x: Scene) returns (s': System)
    requires Stands(s, w, c, Loop(w.i, |x.attempts|), x) && |x.attempts| <= 5 && Busy(x.status)
    ensures w.k in s.j.operations
    ensures Stands(s', w, c, PreparingStep(w.i, s.j.operations[w.k].payload, |x.attempts|), x)
    ensures Reads(s.j.operations[w.k].payload, w, x.attempts, x.status)
  {
    s' := Later(s, w, c, |x.attempts|, false, false);
    hide Reached, Apart, Run, InSequence, Vacant, Consumed, Perform, PrepareNext, CheckStep, DispatchStep, StopStep,
      AfterFailedCreate, CreateStep, InspectStep;
    Moves(s, w, c, |x.attempts|, false, false, x, PreparingStep(w.i, s.j.operations[w.k].payload, |x.attempts|),
          x.files);
  }

  lemma Prepares(s: System, w: World, c: ID, x: Scene, op: Operation) returns (s': System, a: StepAttempt)
    requires Workable(w) && Stands(s, w, c, PreparingStep(w.i, op, |x.attempts|), x)
    requires |x.attempts| <= 5 && Busy(x.status) && AllComplete(x.attempts)
    ensures a.stepID == NAMES[|x.attempts|] && a.kind == FIXED_STEPS[|x.attempts|] && a.Untouched()
    ensures a.preparedAt == w.now
    ensures Stands(s', w, c, Chosen(Frame(w.i, op, |x.attempts|, a)), x.(attempts := x.attempts + [a]))
  {
    var n := |x.attempts|;
    s' := Later(s, w, c, n, false, false);
    a := PrepareWorks(s.j, w, x);
    PrepareTick(s, w, c, x, op, a);
  }

  lemma PrepareTick(s: System, w: World, c: ID, x: Scene, op: Operation, a: StepAttempt)
    requires Stands(s, w, c, PreparingStep(w.i, op, |x.attempts|), x) && |x.attempts| <= 5
    requires var r := PrepareStep(s.j, w.k, FIXED_STEPS[|x.attempts|], w.now, NAMES[|x.attempts|]);
             r.Ok? && r.value.1 == a && Journaled(r.value.0, w, x.(attempts := x.attempts + [a]))
    ensures Stands(Later(s, w, c, |x.attempts|, false, false), w, c, Chosen(Frame(w.i, op, |x.attempts|, a)),
                   x.(attempts := x.attempts + [a]))
  {
    hide Reached, Apart, Journaled, Workable, Commit, LoopHead, CheckStep, DispatchStep, StopStep, AfterFailedCreate,
      CreateStep, InspectStep, Perform, PrepareStep;
    Lands(s, w, c, Kind(w, |x.attempts|, false, false), Chosen(Frame(w.i, op, |x.attempts|, a)), x,
          x.(attempts := x.attempts + [a]));
  }

  /** S03 first promotes an operation that is still preparing. */
  function Promotion(n: nat, status: OperationStatus): OperationStatus {
    if n == 3 && status == Preparing then Executing else status
  }

  lemma Chooses(s: System, w: World, c: ID, f: Frame, x: Scene) returns (s': System)
    requires Stands(s, w, c, Chosen(f), x) && Busy(x.status) && f.op.status == x.status
    ensures Stands(s', w, c, Checking(f), x.(status := Promotion(f.n, x.status)))
  {
    hide Reached, Apart, Journaled, Workable, Commit, LoopHead, PrepareNext, CheckStep, DispatchStep, StopStep,
      AfterFailedCreate, CreateStep, InspectStep, Perform;
    s' := Later(s, w, c, f.n, false, false);
    if f.n == 3 && x.status == Preparing {
      TransitionWorks(s.j, w, x, Executing);
      Commits(s, w, c, f.n, false, x, Transition(w.k, Executing, NotStarted, false, w.now), Checking(f), Halted,
            x.(status := Executing));
    } else {
      Moves(s, w, c, f.n, false, false, x, Checking(f), x.files);
    }
  }

  lemma OfflineIsReady(w: World, f: Frame, attempts: seq<StepAttempt>, now: Time)
    requires Workable(w) && InSequence(attempts) && DoneSoFar(w, attempts) && |attempts| >= 4 && now == w.now
    requires FrameReads(f, w, attempts, Executing)
    ensures Offline(w.digests, w.e, f, Seen(w, true), now) == Ok(Ready(w))
  {
    SeenIsSafe(w, true);
    ReadyIsValid(w, f.op, attempts);
  }

  lemma ReadyIsValid(w: World, op: Operation, attempts: seq<StepAttempt>)
    requires Workable(w) && InSequence(attempts) && |attempts| >= 4 && attempts[3].Complete() &&
             Reads(op, w, attempts, Executing)
    ensures ValidateReady(w.digests, Ready(w), w.e, w.i, op, w.now).Ok?
  {
    SeenIsSafe(w, true);
    SeenIsSafe(w, false);
    hide ValidateSafety, IsHexDigest;
  }

  /** What Checking hands on: the observation and the evidence of the stop. */
  function ReadyFor(w: World, n: nat): ReadyEvidence {
    if n < 4 then ReadyEvidence(Seen(w, false), Seen(w, false), ConfirmedStop(w)) else Ready(w)
  }

  lemma Checks(s: System, w: World, c: ID, f: Frame, before: seq<StepAttempt>, x: Scene) returns (s': System)
    requires Workable(w) && Stands(s, w, c, Checking(f), x) && InSequence(before) && DoneSoFar(w, before)
    requires FrameReads(f, w, before, x.status) || (f.n == 3 && FrameReads(f, w, before, Preparing))
    requires f.n >= 4 ==> x.status == Executing
    ensures Stands(s', w, c, Marking(f, Seen(w, f.n >= 4), ReadyFor(w, f.n)), x)
  {
    s' := Later(s, w, c, f.n, false, false);
    SeenIsSafe(w, false);
    if f.n >= 4 { OfflineIsReady(w, f, before, w.now); }
    CheckTick(s, w, c, f, x);
  }

  lemma TickChecks(s: System, c: ID, o: Oracle)
    requires c in s.coordinators && s.coordinators[c].pc.Checking?
    ensures TickStep(s, c, o) == CheckStep(s, c, s.coordinators[c].pc.f, o)
  {
    hide LoopHead, PrepareNext, CheckStep, DispatchStep, StopStep, AfterFailedCreate, CreateStep, InspectStep, Perform;
  }

  lemma CheckTick(s: System, w: World, c: ID, f: Frame, x: Scene)
    requires Stands(s, w, c, Checking(f), x) && f.i == w.i
    requires ValidateSafety(w.digests, Seen(w, false), w.e, w.i, w.now).Ok?
    requires f.n >= 4 ==> Offline(w.digests, w.e, f, Seen(w, true), w.now) == Ok(Ready(w))
    ensures Stands(Later(s, w, c, f.n, false, false), w, c, Marking(f, Seen(w, f.n >= 4), ReadyFor(w, f.n)), x)
  {
    hide Reached, Apart, Journaled, TickStep, Offline, ValidateSafety;
    DigestsStand(s, w, x);
    TickChecks(s, c, Kind(w, f.n, false, false));
    Moves(s, w, c, f.n, false, false, x, Marking(f, Seen(w, f.n >= 4), ReadyFor(w, f.n)), x.files);
  }

  lemma Marks(s: System, w: World, c: ID, f: Frame, x: Scene, before: SafetyObservation, ready: ReadyEvidence)
    returns (s': System, a: StepAttempt)
    requires Stands(s, w, c, Marking(f, before, ready), x) && Busy(x.status)
    requires f.n < |x.attempts| && f.a.stepID == NAMES[f.n] && x.attempts[f.n].Untouched()
    ensures Pending(a) && a.kind == x.attempts[f.n].kind && a.stepID == x.attempts[f.n].stepID
    ensures a.preparedAt == x.attempts[f.n].preparedAt
    ensures Stands(s', w, c, Dispatching(f, w.now, before, ready), x.(attempts := x.attempts[f.n := a]))
  {
    hide Reached, Apart, Journaled, Workable, Commit, LoopHead, PrepareNext, CheckStep, DispatchStep, StopStep,
      AfterFailedCreate, CreateStep, InspectStep, Perform;
    s' := Later(s, w, c, f.n, false, false);
    a := MarkWorks(s.j, w, x, f.n);
    Commits(s, w, c, f.n, false, x, MarkPossible(w.k, f.a.stepID, w.now), Dispatching(f, w.now, before, ready), Halted,
          x.(attempts := x.attempts[f.n := a]));
  }

  lemma MaintenanceWorks(s: System, w: World, f: Frame)
    requires Workable(w) && s.j.digests == w.digests && f.i == w.i && f.a.stepID == NAMES[2]
    ensures MaintenanceConfirmed(s, w.e, w.k, f, w.now, Kind(w, 2, false, false))
  {
    SeenIsSafe(w, false);
    hide ValidateSafety;
  }

  lemma Dispatches(s: System, w: World, c: ID, f: Frame, x: Scene) returns (s': System, evidence: Evidence)
    requires Workable(w) && Stands(s, w, c, Dispatching(f, w.now, Seen(w, f.n >= 4), ReadyFor(w, f.n)), x)
    requires f.n <= 4 && f.i == w.i && f.a.stepID == NAMES[f.n]
    ensures Stands(s', w, c, Recording(f, evidence), x)
    ensures f.n == 3 ==> evidence == StopReady(Ready(w))
  {
    s' := Later(s, w, c, f.n, false, false);
    if f.n == 3 {
      DispatchTick(s, w, c, f, x, AwaitingStop(f, w.now, Seen(w, false)));
      s' := StopTick(s', w, c, f, x);
      evidence := StopReady(Ready(w));
    } else {
      if f.n == 2 { MaintenanceWorks(s, w, f); }
      evidence := match f.n
        case 0 => ClaimEvidence(w.k, f.i.intentDigest, f.op.epoch)
        case 1 => SafetyEvidence(Seen(w, false))
        case 2 => MaintenanceEvidence(MaintenanceReceipt(w.k, NAMES[2], w.now, ["closed"]), Seen(w, false))
        case _ => StopReady(Ready(w));
      DispatchTick(s, w, c, f, x, Recording(f, evidence));
    }
  }

  lemma TickDispatches(s: System, c: ID, o: Oracle)
    requires c in s.coordinators && s.coordinators[c].pc.Dispatching?
    ensures var pc := s.coordinators[c].pc; TickStep(s, c, o) == DispatchStep(s, c, pc.f, pc.at, pc.before, pc.ready, o)
  {
    hide LoopHead, PrepareNext, CheckStep, DispatchStep, StopStep, AfterFailedCreate, CreateStep, InspectStep, Perform;
  }

  lemma DispatchOnlyLogs(s: System, c: ID, f: Frame, at: Time, before: SafetyObservation, ready: ReadyEvidence,
                         o: Oracle)
    requires c in s.coordinators
    ensures var s' := DispatchStep(s, c, f, at, before, ready, o);
            && s'.j == s.j && s'.files == s.files && c in s'.coordinators
            && s'.coordinators == Goto(s, c, s'.coordinators[c].pc).coordinators
  {
    hide MaintenanceConfirmed, NewRecord;
  }

  lemma DispatchTick(s: System, w: World, c: ID, f: Frame, x: Scene, pc: Pc)
    requires Stands(s, w, c, Dispatching(f, w.now, Seen(w, f.n >= 4), ReadyFor(w, f.n)), x) && f.n <= 5
    requires var s' := DispatchStep(s, c, f, w.now, Seen(w, f.n >= 4), ReadyFor(w, f.n), Kind(w, f.n, false, false));
             s'.coordinators[c].pc == pc
    ensures Stands(Later(s, w, c, f.n, false, false), w, c, pc, x)
  {
    hide Reached, Apart, Journaled, TickStep, DispatchStep, Kind, Seen, ReadyFor;
    var o := Kind(w, f.n, false, false);
    TickDispatches(s, c, o);
    DispatchOnlyLogs(s, c, f, w.now, Seen(w, f.n >= 4), ReadyFor(w, f.n), o);
    Moves(s, w, c, f.n, false, false, x, pc, x.files);
  }

  lemma StopIsJudged(w: World)
    requires Workable(w)
    ensures var request := StopRequest(w.k, NAMES[3], w.i.containerID, w.i.expectedBootID, w.now);
            JudgeStop(request, ConfirmedStop(w), w.now) == ConfirmedStop(w)
  {
    hide IsHexDigest;
  }

  /** The stop that Docker reports is the one that was requested. */
  lemma StopTick(s: System, w: World, c: ID, f: Frame, x: Scene) returns (s': System)
    requires Workable(w) && Stands(s, w, c, AwaitingStop(f, w.now, Seen(w, false)), x)
    requires f.n == 3 && f.i == w.i && f.a.stepID == NAMES[3]
    ensures Stands(s', w, c, Recording(f, StopReady(Ready(w))), x)
  {
    StopIsJudged(w);
    // The observation that comes with the stop is the offline one.
    s' := Later(s, w, c, 4, false, false);
    hide Reached, Apart, Journaled, Workable, Commit, LoopHead, PrepareNext, CheckStep, DispatchStep,
      AfterFailedCreate, CreateStep, InspectStep, Perform, JudgeStop;
    Moves(s, w, c, 4, false, false, x, Recording(f, StopReady(Ready(w))), x.files);
  }

  lemma Records(s: System, w: World, c: ID, f: Frame, evidence: Evidence, x: Scene) returns (s': System, a: StepAttempt)
    requires Stands(s, w, c, Recording(f, evidence), x) && f.i == w.i
    requires f.n < |x.attempts| && f.a.stepID == NAMES[f.n] && x.attempts[f.n].dispatch != NotDispatched
    ensures a.Complete() && a.evidence == [evidence] && a.kind == x.attempts[f.n].kind &&
            a.stepID == x.attempts[f.n].stepID
    ensures a.preparedAt == x.attempts[f.n].preparedAt
    ensures Stands(s', w, c, Loop(w.i, f.n + 1), x.(attempts := x.attempts[f.n := a]))
  {
    hide Reached, Apart, Journaled, Workable, Commit, LoopHead, PrepareNext, CheckStep, DispatchStep, StopStep,
      AfterFailedCreate, CreateStep, InspectStep, Perform;
    s' := Later(s, w, c, f.n, false, false);
    a := RecordWorks(s.j, w, x, f.n, ExpectedObserved, Correlated, evidence);
    Commits(s, w, c, f.n, false, x, Record(w.k, f.a.stepID, ExpectedObserved, Correlated, [evidence], w.now),
          Loop(w.i, f.n + 1), Halted, x.(attempts := x.attempts[f.n := a]));
  }

  /** The status in which step n begins. */
  function StatusAt(n: nat): OperationStatus {
    if n <= 3 then Preparing else Executing
  }

  /** From the head of the loop a step comes to its dispatch. */
  lemma ComesToDispatch(s: System, w: World, c: ID, x: Scene) returns (s': System, f: Frame, a: StepAttempt)
    requires Workable(w) && Stands(s, w, c, Loop(w.i, |x.attempts|), x) && |x.attempts| <= 5
    requires DoneSoFar(w, x.attempts) && x.status == StatusAt(|x.attempts|)
    ensures FrameReads(f, w, x.attempts, x.status)
    ensures Pending(a) && a.kind == FIXED_STEPS[f.n] && a.stepID == NAMES[f.n] && a.preparedAt == w.now
    ensures Stands(s', w, c, Dispatching(f, w.now, Seen(w, f.n >= 4), ReadyFor(w, f.n)),
                   x.(attempts := x.attempts + [a], status := Promotion(f.n, x.status)))
  {
    hide Workable, Stands, Reads, DoneSoFar, ReadyFor, Seen;
    var n := |x.attempts|;
    var s1 := LoopPrepares(s, w, c, x);
    NamedAndComplete(s, w, c, Loop(w.i, n), x);
    var s2, a2 := Prepares(s1, w, c, x, s.j.operations[w.k].payload);
    f := Frame(w.i, s.j.operations[w.k].payload, n, a2);
    StatusRead(w, x, f);
    var x2 := x.(attempts := x.attempts + [a2]);
    var s3 := Chooses(s2, w, c, f, x2);
    var x3 := x2.(status := Promotion(n, x.status));
    var s4 := Checks(s3, w, c, f, x.attempts, x3);
    s', a := Marks(s4, w, c, f, x3, Seen(w, n >= 4), ReadyFor(w, n));
    assert x3.attempts[n := a] == x.attempts + [a];
  }

  lemma StatusRead(w: World, x: Scene, f: Frame)
    requires Reads(f.op, w, x.attempts, x.status)
    ensures f.op.status == x.status
  {
  }

  lemma NamedAndComplete(s: System, w: World, c: ID, pc: Pc, x: Scene)
    requires Stands(s, w, c, pc, x) && DoneSoFar(w, x.attempts)
    ensures InSequence(x.attempts) && AllComplete(x.attempts)
  {
  }

  lemma StepCompletes(s: System, w: World, c: ID, x: Scene) returns (s': System, x': Scene)
    requires Workable(w) && Stands(s, w, c, Loop(w.i, |x.attempts|), x) && |x.attempts| <= 4
    requires DoneSoFar(w, x.attempts) && x.status == StatusAt(|x.attempts|)
    ensures |x'.attempts| == |x.attempts| + 1 && Stands(s', w, c, Loop(w.i, |x'.attempts|), x')
    ensures DoneSoFar(w, x'.attempts) && x'.status == StatusAt(|x'.attempts|)
    ensures x'.backups == x.backups && x'.files == x.files
  {
    hide Workable, Stands, ReadyFor, Seen, Reads, Ready;
    var s1, f, a := ComesToDispatch(s, w, c, x);
    var x1 := x.(attempts := x.attempts + [a], status := Promotion(f.n, x.status));
    var s2, evidence := Dispatches(s1, w, c, f, x1);
    var s3, a' := Records(s2, w, c, f, evidence, x1);
    s', x' := s3, x1.(attempts := x1.attempts[f.n := a']);
  }

  // ---- S05 ---------------------------------------------------------------------------------------------

  /** The record that Create reserves. */
  function RecordOf(w: World, f: Frame): BackupRecord {
    NewRecord(w.e, w.k, f, Ready(w), Kind(w, 5, false, false))
  }

  /** The only backup, in this status. */
  function Copy(w: World, f: Frame, status: BackupStatus): Backups {
    map[w.i.reservedBackupID := BackupRow(w.k, status, RecordOf(w, f).(status := status))]
  }

  /** S05 is pending, and everything before it is complete. */
  ghost predicate Backing(w: World, f: Frame, x: Scene) {
    && |x.attempts| == 6 && Pending(x.attempts[5]) && x.status == Executing
    && InSequence(x.attempts) && DoneSoFar(w, x.attempts[..5]) && FrameReads(f, w, x.attempts[..5], Executing)
  }

  lemma ReserveWorks(j: Journal, w: World, f: Frame, x: Scene)
    requires Workable(w) && Journaled(j, w, x) && Backing(w, f, x) && x.backups == map[]
    ensures var r := Commit(j, Reserve(RecordOf(w, f), w.now));
            r.Ok? && Journaled(r.value, w, x.(backups := Copy(w, f, BackupReserved)))
  {
    ReadyIsValid(w, j.operations[w.k].payload, x.attempts);
    hide ValidateReady, InSequence, Vacant, IsHexDigest, AllComplete;
  }

  lemma MoveWorks(j: Journal, w: World, f: Frame, x: Scene, from: BackupStatus, to: BackupStatus)
    requires Journaled(j, w, x) && x.backups == Copy(w, f, from) && CanTransitionBackup(from, to)
    ensures var r := Commit(j, MoveBackup(w.i.reservedBackupID, to));
            r.Ok? && Journaled(r.value, w, x.(backups := Copy(w, f, to)))
  {
    hide InSequence, Vacant, RecordOf;
  }

  /** S05 complete in the journal beside its VALID record. */
  ghost predicate Whole(w: World, x: Scene) {
    && |x.attempts| == 6 && AllComplete(x.attempts) && x.status == Executing
    && w.i.reservedBackupID in x.backups && ValidateCompleted(x.backups[w.i.reservedBackupID].payload).Ok?
    && var r := x.backups[w.i.reservedBackupID].payload;
    && Final(w.i.reservedBackupID) in x.files
    && w.digests.content(x.files[Final(w.i.reservedBackupID)]) == r.archiveSHA256
    && |x.files[Final(w.i.reservedBackupID)]| == r.archiveSize
  }

  lemma HexLength(digest: string)
    requires IsHexDigest(digest)
    ensures |digest| == 64
  {
  }

  lemma AllBut5(w: World, attempts: seq<StepAttempt>, done: StepAttempt)
    requires |attempts| == 6 && DoneSoFar(w, attempts[..5]) && done.Complete()
    ensures AllComplete(attempts[5 := done]) && attempts[3].Complete()
  {
    assert attempts[3] == attempts[..5][3];
    assert forall m :: 0 <= m < 5 ==> attempts[m] == attempts[..5][m];
  }

  function Validated(w: World, f: Frame): BackupRecord {
    RecordOf(w, f).(ready := Ready(w), status := BackupValid, archiveSHA256 := w.digests.content(w.archive),
                    archiveSize := |w.archive|, digestVerifiedAt := w.now, completedAt := w.now)
  }

  lemma ValidatedPasses(w: World, f: Frame)
    requires Workable(w)
    ensures ValidateCompleted(Validated(w, f)).Ok?
  {
    HexLength(w.digests.content(w.archive));
    hide IsHexDigest;
  }

  ghost function Completion(w: World): Call {
    Complete(w.i.reservedBackupID, w.digests.content(w.archive), |w.archive|, Ready(w), w.now)
  }

  lemma CompletionIsAccepted(j: Journal, w: World, f: Frame, x: Scene)
    requires Workable(w) && Journaled(j, w, x) && Backing(w, f, x) && x.backups == Copy(w, f, BackupVerifying)
    ensures Commit(j, Completion(w)).Ok?
  {
    hide ValidateReady, ValidateCompleted, Vacant, IsHexDigest, InSequence, AllComplete, RecordOf;
    AllBut5(w, x.attempts,
            x.attempts[5].(dispatch := Acknowledged, effect := ExpectedObserved, attribution := Correlated));
    ReadyIsValid(w, j.operations[w.k].payload, x.attempts);
    RecordStep(w, f);
    NamesDiffer(x.attempts, 5, 5);
    ValidatedPasses(w, f);
  }

  lemma RecordStep(w: World, f: Frame)
    ensures RecordOf(w, f).stepID == f.a.stepID && RecordOf(w, f).operationID == w.k
    ensures RecordOf(w, f).backupID == f.i.reservedBackupID
  {
  }

  lemma CompletionWorks(j: Journal, w: World, f: Frame, x: Scene) returns (x': Scene)
    requires Journaled(j, w, x) && Backing(w, f, x) && x.backups == Copy(w, f, BackupVerifying)
    requires Workable(w) && Commit(j, Completion(w)).Ok?
    requires x.files == map[Final(w.i.reservedBackupID) := w.archive]
    ensures x'.files == x.files && Whole(w, x')
    ensures Journaled(Commit(j, Completion(w)).value, w, x')
  {
    hide ValidateReady, ValidateCompleted, Vacant, IsHexDigest, InSequence, AllComplete, RecordOf;
    NamesOf(x.attempts);
    var id, digest := w.i.reservedBackupID, w.digests.content(w.archive);
    RecordStep(w, f);
    ValidatedPasses(w, f);
    var done := x.attempts[5].(
      dispatch := Acknowledged, effect := ExpectedObserved, attribution := Correlated,
      evidence := [Text("backup:" + id), Text("sha256:" + digest)], updatedAt := w.now);
    NamedUpdated(x.attempts, 5, done);
    AllBut5(w, x.attempts, done);
    NothingVacant(Commit(j, Completion(w)).value.steps);
    x' := x.(attempts := x.attempts[5 := done], backups := map[id := BackupRow(w.k, BackupValid, Validated(w, f))]);
  }

  lemma NothingVacant(steps: Steps)
    ensures Vacant(steps, 6)
  {
  }

  lemma TickCreates(s: System, c: ID, o: Oracle)
    requires c in s.coordinators && s.coordinators[c].pc.Creating?
    ensures var pc := s.coordinators[c].pc; TickStep(s, c, o) == CreateStep(s, c, pc.f, pc.r, pc.phase, o)
  {
    hide LoopHead, PrepareNext, CheckStep, DispatchStep, StopStep, AfterFailedCreate, CreateStep, InspectStep, Perform;
  }

  predicate Rechecks(w: World, phase: Phase, next: Phase, files: map<FileName, Bytes>) {
    || (phase.CheckFirst? && next.Reserving? && files == map[])
    || (phase.Rechecking? && next == Completing(phase.digest, phase.size, Ready(w)))
  }

  lemma OfflineStep(s: System, w: World, c: ID, f: Frame, phase: Phase, next: Phase)
    requires c in s.coordinators && s.j.digests == w.digests && s.coordinators[c].enrollment == w.e
    requires Rechecks(w, phase, next, s.files) && Offline(w.digests, w.e, f, Seen(w, true), w.now) == Ok(Ready(w))
    ensures CreateStep(s, c, f, RecordOf(w, f), phase, Kind(w, 5, false, false)) ==
            Goto(s, c, Creating(f, RecordOf(w, f), next))
  {
    hide Perform, Commit, Offline, Seen, ConfirmedStop, Ready;
  }

  /** CheckFirst and Rechecking: the server is still offline. */
  lemma StillOffline(s: System, w: World, c: ID, f: Frame, x: Scene, phase: Phase, next: Phase) returns (s': System)
    requires Workable(w) && Stands(s, w, c, Creating(f, RecordOf(w, f), phase), x) && Backing(w, f, x)
    requires Rechecks(w, phase, next, x.files)
    ensures Stands(s', w, c, Creating(f, RecordOf(w, f), next), x)
  {
    hide Reached, Apart, Journaled, Workable, Backing, TickStep, CreateStep, Offline, Rechecks, RecordOf;
    s' := Later(s, w, c, 5, false, false);
    TickCreates(s, c, Kind(w, 5, false, false));
    BackingIsReady(w, f, x);
    DigestsStand(s, w, x);
    OfflineStep(s, w, c, f, phase, next);
    Moves(s, w, c, 5, false, false, x, Creating(f, RecordOf(w, f), next), x.files);
  }

  lemma BackingIsReady(w: World, f: Frame, x: Scene)
    requires Workable(w) && Backing(w, f, x)
    ensures Offline(w.digests, w.e, f, Seen(w, true), w.now) == Ok(Ready(w))
  {
    OfflineIsReady(w, f, x.attempts[..5], w.now);
  }

  /** What Create does to the archive file between its store calls. */
  predicate OnDisk(w: World, phase: Phase, next: Phase, before: map<FileName, Bytes>, files: map<FileName, Bytes>) {
    var id := w.i.reservedBackupID;
    || (phase.Opening? && next.Archiving? && before == map[] && files == map[Partial(id) := []])
    || (phase.Archiving? && next == ToFinalizing(w.archive) && before == map[Partial(id) := []] &&
        files == map[Partial(id) := w.archive])
    || (phase == Renaming(w.archive) && next == ToVerifying(w.archive) &&
        before == map[Partial(id) := w.archive] && files == map[Final(id) := w.archive])
    || (phase == Rereading(w.archive) && next == Rechecking(w.digests.content(w.archive), |w.archive|) &&
        before == map[Final(id) := w.archive] == files)
  }

  lemma OnDiskStep(s: System, w: World, c: ID, f: Frame, r: BackupRecord, phase: Phase, next: Phase,
                   files: map<FileName, Bytes>)
    requires c in s.coordinators && s.j.digests == w.digests && r.backupID == w.i.reservedBackupID
    requires OnDisk(w, phase, next, s.files, files)
    ensures var s' := CreateStep(s, c, f, r, phase, Kind(w, 5, false, false));
            s'.j == s.j && s'.files == files && s'.coordinators == Goto(s, c, Creating(f, r, next)).coordinators
  {
    hide CreateStep;
    if phase.Rereading? { RereadStep(s, w, c, f, r); } else { WriteStep(s, w, c, f, r, phase, next, files); }
  }

  lemma RereadStep(s: System, w: World, c: ID, f: Frame, r: BackupRecord)
    requires c in s.coordinators && s.j.digests == w.digests && r.backupID == w.i.reservedBackupID
    requires s.files == map[Final(r.backupID) := w.archive]
    ensures var s' := CreateStep(s, c, f, r, Rereading(w.archive), Kind(w, 5, false, false));
            && s'.j == s.j && s'.files == s.files
            && s'.coordinators ==
               Goto(s, c, Creating(f, r, Rechecking(w.digests.content(w.archive), |w.archive|))).coordinators
  {
    hide Perform, Commit, Offline, Seen, ConfirmedStop;
  }

  lemma WriteStep(s: System, w: World, c: ID, f: Frame, r: BackupRecord, phase: Phase, next: Phase,
                  files: map<FileName, Bytes>)
    requires c in s.coordinators && r.backupID == w.i.reservedBackupID
    requires OnDisk(w, phase, next, s.files, files) && !phase.Rereading?
    ensures var s' := CreateStep(s, c, f, r, phase, Kind(w, 5, false, false));
            s'.j == s.j && s'.files == files && s'.coordinators == Goto(s, c, Creating(f, r, next)).coordinators
  {
    hide Perform, Commit, Offline, Seen, ConfirmedStop;
  }

  lemma Files(s: System, w: World, c: ID, f: Frame, x: Scene, phase: Phase, next: Phase, files: map<FileName, Bytes>)
    returns (s': System)
    requires Stands(s, w, c, Creating(f, RecordOf(w, f), phase), x) && f.i == w.i
    requires OnDisk(w, phase, next, x.files, files)
    ensures Stands(s', w, c, Creating(f, RecordOf(w, f), next), x.(files := files))
  {
    s' := Later(s, w, c, 5, false, false);
    TickCreates(s, c, Kind(w, 5, false, false));
    assert s.j.digests == w.digests;
    hide Reached, Apart, Journaled, TickStep, CreateStep, RecordOf, OnDisk;
    RecordStep(w, f);
    OnDiskStep(s, w, c, f, RecordOf(w, f), phase, next, files);
    Moves(s, w, c, 5, false, false, x, Creating(f, RecordOf(w, f), next), files);
  }

  lemma Reserves(s: System, w: World, c: ID, f: Frame, x: Scene) returns (s': System)
    requires Workable(w) && Stands(s, w, c, Creating(f, RecordOf(w, f), Reserving), x) && Backing(w, f, x) &&
             x.backups == map[]
    ensures Stands(s', w, c, Creating(f, RecordOf(w, f), ToWriting), x.(backups := Copy(w, f, BackupReserved)))
  {
    s' := Later(s, w, c, 5, false, false);
    TickCreates(s, c, Kind(w, 5, false, false));
    ReserveWorks(s.j, w, f, x);
    hide Reached, Apart, Journaled, Workable, Backing, TickStep, Offline, Perform, Commit, Copy;
    Commits(s, w, c, 5, false, x, Reserve(RecordOf(w, f), w.now), Creating(f, RecordOf(w, f), ToWriting),
            CreateFailed(f),
          x.(backups := Copy(w, f, BackupReserved)));
  }

  lemma Advances(s: System, w: World, c: ID, f: Frame, x: Scene, phase: Phase, from: BackupStatus, to: BackupStatus,
                 next: Phase)
    returns (s': System)
    requires Stands(s, w, c, Creating(f, RecordOf(w, f), phase), x) && f.i == w.i && x.backups == Copy(w, f, from)
    requires || (phase.ToWriting? && from == BackupReserved && to == BackupWriting && next.Opening?)
             || (phase.ToFinalizing? && from == BackupWriting && to == BackupFinalizing &&
                 next == Renaming(phase.written))
             || (phase.ToVerifying? && from == BackupFinalizing && to == BackupVerifying &&
                 next == Rereading(phase.written))
    ensures Stands(s', w, c, Creating(f, RecordOf(w, f), next), x.(backups := Copy(w, f, to)))
  {
    s' := Later(s, w, c, 5, false, false);
    TickCreates(s, c, Kind(w, 5, false, false));
    MoveWorks(s.j, w, f, x, from, to);
    hide Reached, Apart, Journaled, TickStep, Offline, Perform, Commit, Copy;
    Commits(s, w, c, 5, false, x, MoveBackup(w.i.reservedBackupID, to), Creating(f, RecordOf(w, f), next),
            CreateFailed(f),
          x.(backups := Copy(w, f, to)));
  }

  /** The completing commit, with or without its answer. */
  lemma CompletesWith(s: System, w: World, c: ID, f: Frame, x: Scene, lost: bool) returns (s': System, x': Scene)
    requires var phase := Completing(w.digests.content(w.archive), |w.archive|, Ready(w));
             Workable(w) && Stands(s, w, c, Creating(f, RecordOf(w, f), phase), x)
    requires Backing(w, f, x) && x.backups == Copy(w, f, BackupVerifying)
    requires x.files == map[Final(w.i.reservedBackupID) := w.archive]
    ensures Whole(w, x') && x'.files == x.files
    ensures Stands(s', w, c, if lost then CreateFailed(f) else Loop(w.i, 6), x')
  {
    s' := Later(s, w, c, 5, lost, false);
    CompletionIsAccepted(s.j, w, f, x);
    x' := CompletionWorks(s.j, w, f, x);
    CompletionTick(s, w, c, f, x, lost, x');
  }

  lemma CompletionTick(s: System, w: World, c: ID, f: Frame, x: Scene, lost: bool, x': Scene)
    requires var phase := Completing(w.digests.content(w.archive), |w.archive|, Ready(w));
             Stands(s, w, c, Creating(f, RecordOf(w, f), phase), x) && f.i == w.i && x'.files == x.files
    requires Commit(s.j, Completion(w)).Ok? && Journaled(Commit(s.j, Completion(w)).value, w, x')
    ensures Stands(Later(s, w, c, 5, lost, false), w, c, if lost then CreateFailed(f) else Loop(w.i, 6), x')
  {
    TickCreates(s, c, Kind(w, 5, lost, false));
    hide Reached, Apart, Journaled, TickStep, Offline, Perform, Commit;
    Lands(s, w, c, Kind(w, 5, lost, false), if lost then CreateFailed(f) else Loop(w.i, 6), x, x');
  }

  /** Create up to the point where the transaction that completes S05 is next. */
  lemma ComesToCompletion(s: System, w: World, c: ID, f: Frame, x: Scene) returns (s': System, x': Scene)
    requires Workable(w) && Stands(s, w, c, Creating(f, RecordOf(w, f), CheckFirst), x)
    requires Backing(w, f, x) && x.backups == map[] && x.files == map[]
    ensures Stands(s', w, c,
                   Creating(f, RecordOf(w, f), Completing(w.digests.content(w.archive), |w.archive|, Ready(w))), x')
    ensures Backing(w, f, x') && x'.backups == Copy(w, f, BackupVerifying)
    ensures x'.files == map[Final(w.i.reservedBackupID) := w.archive]
  {
    hide Workable, Stands, RecordOf, Copy, Ready, DoneSoFar, FrameReads, InSequence;
    var id := w.i.reservedBackupID;
    OwnIntent(w, f, x);
    s' := StillOffline(s, w, c, f, x, CheckFirst, Reserving);
    s' := Reserves(s', w, c, f, x);
    x' := x.(backups := Copy(w, f, BackupReserved));
    s' := Advances(s', w, c, f, x', ToWriting, BackupReserved, BackupWriting, Opening);
    x' := x'.(backups := Copy(w, f, BackupWriting));
    s' := Files(s', w, c, f, x', Opening, Archiving, map[Partial(id) := []]);
    x' := x'.(files := map[Partial(id) := []]);
    s' := Files(s', w, c, f, x', Archiving, ToFinalizing(w.archive), map[Partial(id) := w.archive]);
    x' := x'.(files := map[Partial(id) := w.archive]);
    s' := Advances(s', w, c, f, x', ToFinalizing(w.archive), BackupWriting, BackupFinalizing, Renaming(w.archive));
    x' := x'.(backups := Copy(w, f, BackupFinalizing));
    s' := Files(s', w, c, f, x', Renaming(w.archive), ToVerifying(w.archive), map[Final(id) := w.archive]);
    x' := x'.(files := map[Final(id) := w.archive]);
    s' := Advances(s', w, c, f, x', ToVerifying(w.archive), BackupFinalizing, BackupVerifying, Rereading(w.archive));
    x' := x'.(backups := Copy(w, f, BackupVerifying));
    s' := Files(s', w, c, f, x', Rereading(w.archive), Rechecking(w.digests.content(w.archive), |w.archive|), x'.files);
    s' := StillOffline(s', w, c, f, x', Rechecking(w.digests.content(w.archive), |w.archive|),
                       Completing(w.digests.content(w.archive), |w.archive|, Ready(w)));
  }

  lemma OwnIntent(w: World, f: Frame, x: Scene)
    requires Backing(w, f, x)
    ensures f.i == w.i && f.n == 5
  {
  }

  // ---- From nothing to S05 ---------------------------------------------------------------------------------

  function Proposal(w: World): IntentRecord {
    IntentRecord(w.i, IntentAwaitingApproval, "proposal", w.now)
  }

  lemma ApprovalWorks(w: World, j: Journal)
    requires Workable(w) && j == Empty(w.digests).(intents := map[w.i.intentID := RowOfIntent(Proposal(w))])
    ensures var r := Commit(j, Approve(w.i.intentID, w.i.intentDigest, "operator", 0, w.now, "approval", w.k));
            r.Ok? && Journaled(r.value, w, Scene([], Queued, map[], map[]))
  {
    hide IsHexDigest;
  }

  /** Proposed and approved. */
  lemma IsApproved(w: World) returns (s: System)
    requires Workable(w)
    ensures Reached(w, s) && s.coordinators == map[] && s.files == map[] && s.j.digests == w.digests
    ensures Journaled(s.j, w, Scene([], Queued, map[], map[]))
  {
    var insert := Client(Insert(Proposal(w)));
    var approve := Client(Approve(w.i.intentID, w.i.intentDigest, "operator", 0, w.now, "approval", w.k));
    var s0 := Initial(w.digests);
    assert Reached(w, s0) by { NothingRan(w); }
    var s1 := Next(s0, insert);
    InsertWorks(w);
    ApprovalWorks(w, s1.j);
    s := Next(s1, approve);
    hide Reached, Journaled, Workable, Commit;
    ReachedNext(w, s0, insert);
    ReachedNext(w, s1, approve);
  }

  lemma InsertWorks(w: World)
    ensures Next(Initial(w.digests), Client(Insert(Proposal(w)))) ==
            Initial(w.digests).(j := Empty(w.digests).(intents := map[w.i.intentID := RowOfIntent(Proposal(w))]))
  {
  }

  lemma NothingRan(w: World)
    ensures Reached(w, Initial(w.digests))
  {
    var none: seq<Action> := [];
    assert AllInternal(none) && Run(Initial(w.digests), none) == Initial(w.digests);
    assert SoleThroughout(w.digests, none, w.k);
  }

  /** A coordinator is started beside the others. */
  lemma Starts(w: World, s: System, c: ID, x: Scene) returns (s': System)
    requires Reached(w, s) && s.coordinators == w.others && c !in w.others && Journaled(s.j, w, x) && s.files == x.files
    ensures Stands(s', w, c, Start, x) && s'.j == s.j
  {
    s' := Next(s, Spawn(c, w.k, w.e));
    hide Reached, Journaled;
    ReachedNext(w, s, Spawn(c, w.k, w.e));
  }

  lemma Loads(s: System, w: World, c: ID, x: Scene) returns (s': System)
    requires Stands(s, w, c, Start, x)
    ensures w.k in s.j.operations && Reads(s.j.operations[w.k].payload, w, x.attempts, x.status)
    ensures Stands(s', w, c, Loaded(s.j.operations[w.k].payload), x)
  {
    s' := Later(s, w, c, 0, false, false);
    assert w.k in s.j.operations && Reads(s.j.operations[w.k].payload, w, x.attempts, x.status);
    hide Reached, Apart, Journaled, Reads, Perform, LoopHead, PrepareNext, CheckStep, DispatchStep, StopStep,
      AfterFailedCreate, CreateStep, InspectStep;
    Moves(s, w, c, 0, false, false, x, Loaded(s.j.operations[w.k].payload), x.files);
  }

  lemma MayContinue(w: World, op: Operation, record: IntentRecord, x: Scene)
    requires Workable(w) && Reads(op, w, x.attempts, x.status) && (x.status == Queued || Busy(x.status))
    requires x.attempts != [] ==> x.attempts[0].preparedAt == w.now
    requires record.intent == w.i && record.status == IntentConsumed
    ensures CanContinue(w.digests, w.e, op, record, w.now).Ok?
  {
    hide IsHexDigest;
  }

  lemma Enters(s: System, w: World, c: ID, op: Operation, x: Scene) returns (s': System)
    requires Workable(w) && Stands(s, w, c, Loaded(op), x) && Reads(op, w, x.attempts, x.status)
    requires (x.status == Queued || Busy(x.status)) && (x.attempts != [] ==> x.attempts[0].preparedAt == w.now)
    ensures Stands(s', w, c, if x.status == Queued then Claiming(w.i) else Loop(w.i, 0), x)
  {
    s' := Later(s, w, c, 0, false, false);
    MayContinue(w, op, s.j.intents[w.i.intentID].payload, x);
    assert Consumed(s.j, w);
    hide Reached, Apart, Journaled, Workable, CanContinue, Perform, LoopHead, PrepareNext, CheckStep, DispatchStep,
      StopStep, AfterFailedCreate, CreateStep, InspectStep;
    Moves(s, w, c, 0, false, false, x, if x.status == Queued then Claiming(w.i) else Loop(w.i, 0), x.files);
  }

  lemma Claims(s: System, w: World, c: ID, x: Scene) returns (s': System)
    requires Stands(s, w, c, Claiming(w.i), x) && x.status == Queued
    ensures Stands(s', w, c, Loop(w.i, 0), x.(status := Preparing))
  {
    s' := Later(s, w, c, 0, false, false);
    TransitionWorks(s.j, w, x, Preparing);
    hide Reached, Apart, Journaled, Commit, Perform, LoopHead, PrepareNext, CheckStep, DispatchStep, StopStep,
      AfterFailedCreate, CreateStep, InspectStep;
    Commits(s, w, c, 0, false, x, Transition(w.k, Preparing, NotStarted, false, w.now), Loop(w.i, 0), Halted,
          x.(status := Preparing));
  }

  lemma CompletesFive(s: System, w: World, c: ID, x: Scene) returns (s': System, x': Scene)
    requires Workable(w) && Stands(s, w, c, Loop(w.i, 0), x) && x == Scene([], Preparing, map[], map[])
    ensures |x'.attempts| == 5 && Stands(s', w, c, Loop(w.i, 5), x')
    ensures DoneSoFar(w, x'.attempts) && x'.status == Executing && x'.backups == map[] && x'.files == map[]
  {
    hide Workable, Stands;
    s', x' := s, x;
    for n := 0 to 5
      invariant |x'.attempts| == n && Stands(s', w, c, Loop(w.i, n), x')
      invariant DoneSoFar(w, x'.attempts) && x'.status == StatusAt(n) && x'.backups == map[] && x'.files == map[]
    {
      s', x' := StepCompletes(s', w, c, x');
    }
  }

  /** S05 is durable as possibly dispatched, and nothing of the backup exists yet. */
  lemma ComesToBackup(w: World, c: ID) returns (s: System, f: Frame, x: Scene)
    requires Workable(w) && w.others == map[]
    ensures Stands(s, w, c, Dispatching(f, w.now, Seen(w, true), Ready(w)), x)
    ensures Backing(w, f, x) && x.backups == map[] && x.files == map[] && x.attempts[0].preparedAt == w.now
  {
    hide Workable, Stands, Reads, Ready, Seen;
    var approved := IsApproved(w);
    var x0 := Scene([], Queued, map[], map[]);
    var s1 := Starts(w, approved, c, x0);
    var s2 := Loads(s1, w, c, x0);
    var s3 := Enters(s2, w, c, s1.j.operations[w.k].payload, x0);
    var s4 := Claims(s3, w, c, x0);
    var s5, x5 := CompletesFive(s4, w, c, x0.(status := Preparing));
    var a: StepAttempt;
    s, f, a := ComesToDispatch(s5, w, c, x5);
    x := x5.(attempts := x5.attempts + [a]);
    assert x.attempts[..5] == x5.attempts;
    StandsNamed(s, w, c, Dispatching(f, w.now, Seen(w, true), Ready(w)), x);
  }

  lemma StandsNamed(s: System, w: World, c: ID, pc: Pc, x: Scene)
    requires Stands(s, w, c, pc, x)
    ensures InSequence(x.attempts)
  {
  }

  // ---- The ends -----------------------------------------------------------------------------------------------

  lemma BacksUp(s: System, w: World, c: ID, f: Frame, x: Scene, lost: bool) returns (s': System, x': Scene)
    requires Workable(w) && Stands(s, w, c, Dispatching(f, w.now, Seen(w, true), Ready(w)), x)
    requires Backing(w, f, x) && x.backups == map[] && x.files == map[]
    ensures Whole(w, x') && Stands(s', w, c, if lost then CreateFailed(f) else Loop(w.i, 6), x')
  {
    hide Workable, Stands, Ready, Seen, Whole, Kind, DoneSoFar, FrameReads, InSequence, Copy;
    OwnIntent(w, f, x);
    DispatchesBackup(s, w, c, f, x);
    var s1 := Later(s, w, c, 5, false, false);
    var s2, x2 := ComesToCompletion(s1, w, c, f, x);
    s', x' := CompletesWith(s2, w, c, f, x2, lost);
  }

  lemma DispatchesBackup(s: System, w: World, c: ID, f: Frame, x: Scene)
    requires Stands(s, w, c, Dispatching(f, w.now, Seen(w, true), Ready(w)), x) && f.n == 5
    ensures Stands(Later(s, w, c, 5, false, false), w, c, Creating(f, RecordOf(w, f), CheckFirst), x)
  {
    hide Reached, Apart, Journaled, NewRecord, Kind, Seen, Ready, TickStep;
    DispatchTick(s, w, c, f, x, Creating(f, RecordOf(w, f), CheckFirst));
  }

  lemma Inspects(s: System, w: World, c: ID, x: Scene) returns (s': System)
    requires Whole(w, x) && Stands(s, w, c, Loop(w.i, 6), x)
    ensures Stands(s', w, c, Inspecting(OfRun(w.i), w.i.reservedBackupID, ReadRecord), x)
  {
    s' := Later(s, w, c, 6, false, false);
    hide Reached, Apart, Journaled, Whole, Perform, PrepareNext, CheckStep, DispatchStep, StopStep, AfterFailedCreate,
      CreateStep, InspectStep;
    Moves(s, w, c, 6, false, false, x, Inspecting(OfRun(w.i), w.i.reservedBackupID, ReadRecord), x.files);
  }

  lemma TickInspects(s: System, c: ID, o: Oracle)
    requires c in s.coordinators && s.coordinators[c].pc.Inspecting?
    ensures var pc := s.coordinators[c].pc; TickStep(s, c, o) == InspectStep(s, c, pc.purpose, pc.id, pc.stage, o)
  {
    hide LoopHead, PrepareNext, CheckStep, DispatchStep, StopStep, AfterFailedCreate, CreateStep, InspectStep, Perform;
  }

  lemma ReadsRecord(s: System, w: World, c: ID, x: Scene) returns (s': System)
    requires Whole(w, x) && Stands(s, w, c, Inspecting(OfRun(w.i), w.i.reservedBackupID, ReadRecord), x)
    ensures var r := x.backups[w.i.reservedBackupID].payload;
            Stands(s', w, c, Inspecting(OfRun(w.i), w.i.reservedBackupID, VerifyArchive(r)), x)
  {
    s' := Later(s, w, c, 6, false, false);
    assert s.j.backups == x.backups;
    TickInspects(s, c, Kind(w, 6, false, false));
    hide Reached, Apart, Journaled, TickStep, Perform, ValidateCompleted, Seen, ConfirmedStop;
    var r := x.backups[w.i.reservedBackupID].payload;
    Moves(s, w, c, 6, false, false, x, Inspecting(OfRun(w.i), w.i.reservedBackupID, VerifyArchive(r)), x.files);
  }

  lemma Finishes(s: System, w: World, c: ID, x: Scene) returns (s': System)
    requires Whole(w, x)
    requires var r := x.backups[w.i.reservedBackupID].payload;
             Stands(s, w, c, Inspecting(OfRun(w.i), w.i.reservedBackupID, VerifyArchive(r)), x)
    ensures Stands(s', w, c, Finished(w.i), x)
  {
    s' := Later(s, w, c, 6, false, false);
    TickInspects(s, c, Kind(w, 6, false, false));
    DigestsStand(s, w, x);
    hide Reached, Apart, Journaled, TickStep, Perform, ValidateCompleted, Seen, ConfirmedStop;
    Moves(s, w, c, 6, false, false, x, Finished(w.i), x.files);
  }

  lemma DigestsStand(s: System, w: World, x: Scene)
    requires Journaled(s.j, w, x)
    ensures s.j.digests == w.digests
  {
  }

  /** An approved intent can be carried out to the end by one coordinator. */
  lemma SuccessIsReachable(w: World, c: ID) returns (actions: seq<Action>)
    requires Workable(w) && w.others == map[]
    ensures AllInternal(actions) && SoleThroughout(w.digests, actions, w.k)
    ensures var s := Run(Initial(w.digests), actions);
            && c in s.coordinators && s.coordinators[c] == Coordinator(w.k, w.e, Finished(w.i))
            && Complete5(s, w.k) && Valid5(s, w.k)
  {
    var s, x;
    ghost var f;
    s, f, x := ComesToBackup(w, c);
    s, x := BacksUp(s, w, c, f, x, false);
    s := Inspects(s, w, c, x);
    s := ReadsRecord(s, w, c, x);
    s := Finishes(s, w, c, x);
    actions := RunTo(s, w, c, Finished(w.i), x);
  }

  lemma ActionsTo(w: World, s: System) returns (actions: seq<Action>)
    requires Reached(w, s)
    ensures AllInternal(actions) && Run(Initial(w.digests), actions) == s
    ensures w.others == map[] ==> SoleThroughout(w.digests, actions, w.k)
  {
    actions :| AllInternal(actions) && Run(Initial(w.digests), actions) == s &&
               (w.others == map[] ==> SoleThroughout(w.digests, actions, w.k));
  }

  /** The run that leads to a complete S05, which has its backup. */
  lemma RunTo(s: System, w: World, c: ID, pc: Pc, x: Scene) returns (actions: seq<Action>)
    requires Stands(s, w, c, pc, x) && Whole(w, x)
    ensures AllInternal(actions) && Run(Initial(w.digests), actions) == s
    ensures w.others == map[] ==> SoleThroughout(w.digests, actions, w.k)
    ensures Complete5(s, w.k) && Valid5(s, w.k) && Orderly(s) && Linked(s.j)
  {
    actions := ActionsTo(w, s);
    assert Complete5(s, w.k);
    hide Run, Orderly, Linked, SoleThroughout, HasItsBackup, BackedUp, Whole, Journaled;
    RunIsOrderly(w.digests, actions);
    RunIsLinked(w.digests, actions);
    CompleteExactlyWithValidBackup(w.digests, actions, w.k);
  }

  /** After this run the backup of operation k is VALID although its S05 is not complete. */
  ghost predicate Undone(digests: Digests, actions: seq<Action>, k: ID) {
    && AllInternal(actions)
    && var s := Run(Initial(digests), actions); Valid5(s, k) && !Complete5(s, k) && Unresolved(s, k)
  }

  lemma TickGivesUp(s: System, c: ID, o: Oracle)
    requires c in s.coordinators && s.coordinators[c].pc.GivingUp?
    ensures TickStep(s, c, o) ==
            Perform(s, c,
                    Record(s.coordinators[c].operationID, s.coordinators[c].pc.f.a.stepID, EffectUnknown, Unattributed,
                                 [Text("reason")], o.now), o.lost, Halted, Halted)
  {
    hide LoopHead, PrepareNext, CheckStep, DispatchStep, StopStep, AfterFailedCreate, CreateStep, InspectStep, Perform;
  }

  lemma GivesUpTick(s: System, w: World, c: ID, f: Frame, x: Scene) returns (x': Scene)
    requires Stands(s, w, c, GivingUp(f), x) && |x.attempts| == 6 && f.a.stepID == NAMES[5]
    requires x.attempts[5].dispatch != NotDispatched
    ensures Stands(Later(s, w, c, 5, false, false), w, c, Halted, x')
  {
    hide Reached, Apart, Journaled, Commit, Perform, TickStep, Observed;
    var a := RecordWorks(s.j, w, x, 5, EffectUnknown, Unattributed, Text("reason"));
    x' := x.(attempts := x.attempts[5 := a], status := Unknown);
    TickGivesUp(s, c, Kind(w, 5, false, false));
    Commits(s, w, c, 5, false, x, Record(w.k, f.a.stepID, EffectUnknown, Unattributed, [Text("reason")], w.now),
            Halted, Halted, x');
  }

  lemma GivesUpOutcome(s: System, w: World, c: ID, f: Frame, x: Scene)
    requires Stands(s, w, c, GivingUp(f), x) && Whole(w, x) && f.n == 5
    ensures var s' := Later(s, w, c, 5, false, false);
            Valid5(s', w.k) && !Complete5(s', w.k) && Unresolved(s', w.k)
  {
    hide Orderly, Linked, Next, HasItsBackup, BackedUp, Whole, Journaled, SoleThroughout, Trapped, Kind, Run,
      AllInternal, Reached, Apart;
    var before := RunTo(s, w, c, GivingUp(f), x);
    GivingUpUndoes(s, c, Kind(w, 5, false, false), w.k);
  }

  lemma GivesUpWhole(s: System, w: World, c: ID, f: Frame, x: Scene) returns (actions: seq<Action>)
    requires Stands(s, w, c, GivingUp(f), x) && Whole(w, x) && f.n == 5 && f.a.stepID == NAMES[5]
    ensures Undone(w.digests, actions, w.k)
    ensures w.others == map[] ==> SoleThroughout(w.digests, actions, w.k)
    ensures Run(Initial(w.digests), actions).coordinators == w.others[c := Coordinator(w.k, w.e, Halted)]
  {
    assert x.attempts[5].Complete();
    hide Valid5, Complete5, Unresolved, Whole, Stands, SoleThroughout, Run, AllInternal, Next, Kind;
    GivesUpOutcome(s, w, c, f, x);
    var x' := GivesUpTick(s, w, c, f, x);
    StandsApart(Later(s, w, c, 5, false, false), w, c, Halted, x');
    actions := ActionsTo(w, Later(s, w, c, 5, false, false));
  }

  lemma StandsApart(s: System, w: World, c: ID, pc: Pc, x: Scene)
    requires Stands(s, w, c, pc, x)
    ensures Reached(w, s) && s.coordinators == w.others[c := Coordinator(w.k, w.e, pc)]
  {
  }

  /** The answer of the completing commit is lost and S05 cannot be read again. */
  lemma Loses(s: System, w: World, c: ID, f: Frame, x: Scene) returns (s': System)
    requires Stands(s, w, c, CreateFailed(f), x)
    ensures Stands(s', w, c, GivingUp(f), x)
  {
    s' := Later(s, w, c, 5, false, true);
    hide Reached, Apart, Journaled, Perform, LoopHead, PrepareNext, CheckStep, DispatchStep, StopStep, CreateStep,
      InspectStep;
    Moves(s, w, c, 5, false, true, x, GivingUp(f), x.files);
  }

  /** One coordinator alone can leave a VALID backup beside an unresolved S05. */
  lemma LostAnswerIsReachable(w: World, c: ID) returns (actions: seq<Action>)
    requires Workable(w) && w.others == map[]
    ensures Undone(w.digests, actions, w.k) && SoleThroughout(w.digests, actions, w.k)
  {
    hide Workable, Stands, Ready, Seen, Whole, DoneSoFar, InSequence, Undone, SoleThroughout;
    var s, f, x := ComesToBackup(w, c);
    FrameName(w, f, x);
    s, x := BacksUp(s, w, c, f, x, true);
    s := Loses(s, w, c, f, x);
    actions := GivesUpWhole(s, w, c, f, x);
  }

  lemma FrameName(w: World, f: Frame, x: Scene)
    requires Backing(w, f, x)
    ensures f.n == 5 && f.a.stepID == NAMES[5]
  {
  }

  // ---- A second coordinator ----------------------------------------------------------------------------------

  /** Coordinator c pauses and d is the one that moves. */
  lemma Switches(s: System, w: World, c: ID, pc: Pc, x: Scene, d: ID) returns (s': System, w': World)
    requires Stands(s, w, c, pc, x) && w.others == map[] && c != d
    ensures w' == w.(others := map[c := Coordinator(w.k, w.e, pc)]) && Stands(s', w', d, Start, x)
  {
    w' := w.(others := map[c := Coordinator(w.k, w.e, pc)]);
    hide Journaled;
    assert Journaled(s.j, w', x) by { OthersDoNotMatter(s.j, w, w', x); }
    s' := Starts(w', s, d, x);
  }

  lemma OthersDoNotMatter(j: Journal, w: World, w': World, x: Scene)
    requires Journaled(j, w, x) && w' == w.(others := w'.others)
    ensures Journaled(j, w', x)
  {
    hide InSequence, Vacant;
  }

  lemma Skips(s: System, w: World, d: ID, n: nat, x: Scene) returns (s': System)
    requires Stands(s, w, d, Loop(w.i, n), x) && n < |x.attempts| <= 6 && x.attempts[n].Complete() &&
             x.status == Executing
    ensures Stands(s', w, d, Loop(w.i, n + 1), x)
  {
    s' := Later(s, w, d, n, false, false);
    hide Reached, Apart, InSequence, Vacant, Consumed, Perform, PrepareNext, CheckStep, DispatchStep, StopStep,
      AfterFailedCreate, CreateStep, InspectStep;
    Moves(s, w, d, n, false, false, x, Loop(w.i, n + 1), x.files);
  }

  lemma FindsPending(s: System, w: World, d: ID, x: Scene) returns (s': System, f: Frame)
    requires Stands(s, w, d, Loop(w.i, 5), x) && |x.attempts| == 6 && Pending(x.attempts[5]) && x.status == Executing
    ensures f.n == 5 && f.a.stepID == NAMES[5] && Stands(s', w, d, GivingUp(f), x)
  {
    s' := Later(s, w, d, 5, false, false);
    f := Frame(w.i, s.j.operations[w.k].payload, 5, x.attempts[5]);
    NamesDiffer(x.attempts, 5, 5);
    hide Reached, Apart, InSequence, Vacant, Consumed, Perform, PrepareNext, CheckStep, DispatchStep, StopStep,
      AfterFailedCreate, CreateStep, InspectStep;
    Moves(s, w, d, 5, false, false, x, GivingUp(f), x.files);
  }

  /** A second coordinator finds S05 pending and gives up on it. */
  lemma GivesUpEarly(s: System, w: World, d: ID, f: Frame, x: Scene) returns (s': System, g: Frame)
    requires Workable(w) && Stands(s, w, d, Start, x) && Backing(w, f, x) && x.attempts[0].preparedAt == w.now
    ensures g.n == 5 && g.a.stepID == NAMES[5] && Stands(s', w, d, GivingUp(g), x)
  {
    hide Workable, Stands, Reads, InSequence;
    var s1 := Loads(s, w, d, x);
    s' := Enters(s1, w, d, s.j.operations[w.k].payload, x);
    for n := 0 to 5
      invariant Stands(s', w, d, Loop(w.i, n), x)
    {
      assert x.attempts[n] == x.attempts[..5][n];
      s' := Skips(s', w, d, n, x);
    }
    s', g := FindsPending(s', w, d, x);
  }

  /** Nothing but the list of others changes. */
  lemma SameWorld(w: World, w': World, f: Frame, x: Scene)
    requires w' == w.(others := w'.others)
    ensures Workable(w') == Workable(w) && Ready(w') == Ready(w) && Seen(w', true) == Seen(w, true)
    ensures Backing(w', f, x) == Backing(w, f, x)
  {
    hide InSequence, AllComplete, IsHexDigest;
  }

  lemma SwitchesBack(s: System, w: World, d: ID, pc: Pc, x: Scene, c: ID, paused: Pc) returns (w': World)
    requires Stands(s, w, d, pc, x) && c != d && w.others == map[c := Coordinator(w.k, w.e, paused)]
    ensures w' == w.(others := map[d := Coordinator(w.k, w.e, pc)]) && Stands(s, w', c, paused, x)
  {
    w' := w.(others := map[d := Coordinator(w.k, w.e, pc)]);
    hide Journaled;
    OthersDoNotMatter(s.j, w, w', x);
    assert d in w'.others;
  }

  /**
   Two coordinators reach it without any lost answer: d gives up on the pending S05 of c, c completes it and returns
   success, and d then records what it had decided before.
   */
  lemma RaceIsReachable(w: World, c: ID, d: ID) returns (actions: seq<Action>)
    requires Workable(w) && w.others == map[] && c != d
    ensures Undone(w.digests, actions, w.k)
    ensures var s := Run(Initial(w.digests), actions);
            c in s.coordinators && s.coordinators[c] == Coordinator(w.k, w.e, Finished(w.i))
  {
    hide Workable, Stands, Ready, Seen, Whole, DoneSoFar, InSequence, Undone, SoleThroughout, Backing, Run;
    var s, f, x := ComesToBackup(w, c);
    var pc := Dispatching(f, w.now, Seen(w, true), Ready(w));
    var w1, w2, w3, g;
    s, w1 := Switches(s, w, c, pc, x, d);
    SameWorld(w, w1, f, x);
    s, g := GivesUpEarly(s, w1, d, f, x);
    w2 := SwitchesBack(s, w1, d, GivingUp(g), x, c, pc);
    SameWorld(w, w2, f, x);
    s, x := BacksUp(s, w2, c, f, x, false);
    s := Inspects(s, w2, c, x);
    s := ReadsRecord(s, w2, c, x);
    s := Finishes(s, w2, c, x);
    w3 := SwitchesBack(s, w2, c, Finished(w.i), x, d, GivingUp(g));
    WholeThere(w2, w3, x);
    actions := GivesUpWhole(s, w3, d, g, x);
  }

  lemma WholeThere(w: World, w': World, x: Scene)
    requires w' == w.(others := w'.others) && Whole(w, x)
    ensures Whole(w', x)
  {
  }

  /** There are such worlds. */
  lemma SomeWorldIsWorkable() returns (w: World)
    ensures Workable(w) && w.others == map[]
  {
    var digests := Digests((i: ChangeIntent) => "intent", (e: Enrollment) => "enrollment",
                           (b: Bytes) => seq(64, m => '0'), "recipe");
    var e := Enrollment("target", "enrollment", 1, "container", "root", "revision", "policy", "paper", "");
    var i := ChangeIntent("intent-1", "request-1", "principal", "enrollment", 1, "container", "paper", "boot",
                          "plugin", "artifact", "sha", "revision", "policy", "inventory", "config",
                          FIXED_STEPS, "backup-1", "recipe", 2, 2, 900, "", "intent");
    w := World(digests, e, i, "operation-1", 1, [0], map[]);
  }
}
