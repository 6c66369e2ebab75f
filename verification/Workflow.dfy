/**
 Any number of coordinators running the S00-S05 workflow against one journal and
 one archive directory. A coordinator is a program counter with its local,
 possibly stale, reads. One action advances one coordinator past one durable
 effect; what the clock, the target and the disk answer comes in as an `Oracle`.

 A coordinator may crash between any two actions, and a commit may succeed while
 its response is lost. Other clients may call the store at any time, anyone may
 inspect a backup, and bytes of existing archive files may change underneath.
 */
module Workflow {
  import opened Domain
  import opened Journal

  datatype External = CloseAdmission | GracefulStop | CreateBackup

  /** The workflow step that performs an external action. */
  function StepOf(kind: External): nat {
    match kind
    case CloseAdmission => 2
    case GracefulStop => 3
    case CreateBackup => 5
  }

  datatype Dispatch = Dispatch(kind: External, operationID: ID, stepID: ID)

  /** `<id>.tar.partial` and `<id>.tar` in the backup destination. */
  datatype FileName = Partial(id: ID) | Final(id: ID)

  datatype Frame = Frame(i: ChangeIntent, op: Operation, n: nat, a: StepAttempt)

  datatype Phase =
    | CheckFirst | Reserving | ToWriting | Opening | Archiving
    | ToFinalizing(written: Bytes) | Renaming(written: Bytes) | ToVerifying(written: Bytes)
    | Rereading(written: Bytes)
    | Rechecking(digest: string, size: int)
    | Completing(digest: string, size: int, ready: ReadyEvidence)

  datatype Purpose = Standalone | OfRun(i: ChangeIntent)

  datatype Stage = ReadRecord | StatArchive | Orphaning | VerifyArchive(r: BackupRecord)

  datatype Pc =
    | Start
    | Loaded(op: Operation)
    | Claiming(i: ChangeIntent)
    | Loop(i: ChangeIntent, n: nat)
    | PreparingStep(i: ChangeIntent, op: Operation, n: nat)
    | Chosen(f: Frame)
    | Checking(f: Frame)
    | Marking(f: Frame, before: SafetyObservation, ready: ReadyEvidence)
    | Dispatching(f: Frame, at: Time, before: SafetyObservation, ready: ReadyEvidence)
    | AwaitingStop(f: Frame, at: Time, before: SafetyObservation)
    | Recording(f: Frame, evidence: Evidence)
    | RecordingOther(f: Frame, attribution: Attribution, references: seq<string>)
    | RecordingUnattributed(f: Frame, references: seq<string>)
    | MarkingUnknown
    | GivingUp(f: Frame)
    | Creating(f: Frame, r: BackupRecord, phase: Phase)
    | CreateFailed(f: Frame)
    | Inspecting(purpose: Purpose, id: ID, stage: Stage)
    | Halted
    | Finished(i: ChangeIntent)

  datatype Coordinator = Coordinator(operationID: ID, enrollment: Enrollment, pc: Pc)

  datatype Oracle = Oracle(
    now: Time, freshID: ID, lost: bool, fail: bool, observation: SafetyObservation,
    receipt: MaintenanceReceipt, closed: SafetyObservation, stop: StopEvidence,
    bytes: Bytes, finished: bool, level: EvidenceLevel)

  /**
   `dispatched` logs every external action, `created` every Create that returned without error, and
   `checked` what a Create wrote and what it read back before it asked for completion.
   */
  datatype System = System(
    j: Journal, files: map<FileName, Bytes>, coordinators: map<ID, Coordinator>,
    dispatched: seq<Dispatch>, created: seq<ID>, checked: map<ID, (Bytes, Bytes)>)

  datatype Action =
    | Spawn(c: ID, operationID: ID, enrollment: Enrollment)
    | SpawnInspect(c: ID, backupID: ID, enrollment: Enrollment)
    | Crash(c: ID)
    | Tick(c: ID, o: Oracle)
    | Client(call: Call)
    | Tamper(name: FileName, bytes: Bytes)

  function Goto(s: System, c: ID, pc: Pc): System
    requires c in s.coordinators
  {
    s.(coordinators := s.coordinators[c := s.coordinators[c].(pc := pc)])
  }

  /** One store call. A lost response commits and still looks like a failure. */
  ghost function Perform(s: System, c: ID, call: Call, lost: bool, ok: Pc, failed: Pc): System
    requires c in s.coordinators
  {
    match Commit(s.j, call)
    case Ok(next) => Goto(s.(j := next), c, if lost then failed else ok)
    case Err(_) => Goto(s, c, failed)
  }

  function CanContinue(digests: Digests, enrollment: Enrollment, op: Operation, record: IntentRecord, now: Time)
    : Result<()>
  {
    var i := record.intent;
    :- Need(DigestMatches(digests, i), InvalidIntentDigest);
    :- Need(op.intentDigest == i.intentDigest && record.status == IntentConsumed &&
            op.enrollmentID == enrollment.enrollmentID, ApprovalRequired);
    :- Need(i.steps == FIXED_STEPS, ScopeDenied);
    :- Need(!op.released && op.status in {Queued, Preparing, Executing}, TargetBlockedUnknown);
    :- Need(0 < i.executionBudgetSeconds <= 900, InvalidRequest);
    var started := if op.attempts == [] then now else op.attempts[0].preparedAt;
    :- Need(started <= now < started + i.executionBudgetSeconds * SECOND, ClockUnsafe);
    :- Need((op.attempts == [] || op.attempts[0].dispatch == NotDispatched || op.status == Queued)
            ==> now < i.startBefore, ApprovalExpired);
    Ok(())
  }

  /** The stop evidence of S03 with a fresh offline observation. */
  function Offline(digests: Digests, enrollment: Enrollment, f: Frame, observation: SafetyObservation, now: Time)
    : Result<ReadyEvidence>
  {
    var attributed :=
      |f.op.attempts| >= 4 && f.op.attempts[3].attribution == Correlated &&
      |f.op.attempts[3].evidence| == 1;
    :- Need(attributed, PreconditionUnavailable);
    :- Need(f.op.attempts[3].evidence[0].StopReady?, JournalUnavailable);
    var ready := f.op.attempts[3].evidence[0].ready;
    :- Need(ready.stop.stepID == f.op.attempts[3].stepID, PreconditionUnavailable);
    var _ :- ValidateSafety(digests, observation, enrollment, f.i, now);
    var _ :- ValidateReady(digests, ready.(offline := observation), enrollment, f.i, f.op, now);
    Ok(ready.(offline := observation))
  }

  function NewRecord(enrollment: Enrollment, operationID: ID, f: Frame, ready: ReadyEvidence, o: Oracle): BackupRecord {
    BackupRecord(
      o.level, f.i.reservedBackupID, BACKUP_SCHEMA, enrollment.targetID, f.i.enrollmentID,
      f.i.deploymentGeneration, f.i.containerID, enrollment.dataRootIdentity, f.i.paperTuple,
      f.i.expectedBootID, f.i.intentID, f.i.intentDigest, operationID, f.a.stepID,
      f.i.inventoryDigest, f.i.configDigest,
      [SourceArtifact(f.i.fromArtifactID, f.i.pluginID, f.i.fromSHA256)],
      BACKUP_RECIPE_ID, f.i.backupRecipeDigest, o.now, ZERO_TIME, true, 0, "", ZERO_TIME,
      BackupReserved, ready)
  }

  // ---- The steps of Run ------------------------------------------------------

  function LoopHead(s: System, c: ID, i: ChangeIntent, n: nat): System
    requires c in s.coordinators
  {
    var k := s.coordinators[c].operationID;
    if n > 5 then Goto(s, c, Inspecting(OfRun(i), i.reservedBackupID, ReadRecord))
    else if k !in s.j.operations then Goto(s, c, Halted)
    else
      var op := s.j.operations[k].payload;
      if op.status == Unknown || op.status == NeedsIntervention then Goto(s, c, Halted)
      else if |op.attempts| <= n then Goto(s, c, PreparingStep(i, op, n))
      else if op.attempts[n].Complete() then Goto(s, c, Loop(i, n + 1))
      else if !op.attempts[n].Untouched() then Goto(s, c, GivingUp(Frame(i, op, n, op.attempts[n])))
      else Goto(s, c, Chosen(Frame(i, op, n, op.attempts[n])))
  }

  function PrepareNext(s: System, c: ID, i: ChangeIntent, op: Operation, n: nat, o: Oracle): System
    requires c in s.coordinators && n <= 5
  {
    match PrepareStep(s.j, s.coordinators[c].operationID, FIXED_STEPS[n], o.now, o.freshID)
    case Ok(t) => Goto(s.(j := t.0), c, if o.lost then Halted else Chosen(Frame(i, op, n, t.1)))
    case Err(_) => Goto(s, c, Halted)
  }

  predicate SafeBefore(n: nat, before: SafetyObservation) {
    && !before.processStopped
    && (n >= 2 ==> before.players == 0)
    && (n == 3 ==> before.admissionClosed && before.maintenance)
  }

  function CheckStep(s: System, c: ID, f: Frame, o: Oracle): System
    requires c in s.coordinators
  {
    var enrollment := s.coordinators[c].enrollment;
    if o.fail then Goto(s, c, Halted)
    else if 1 <= f.n <= 3 then
      if ValidateSafety(s.j.digests, o.observation, enrollment, f.i, o.now).Ok? && SafeBefore(f.n, o.observation)
      then Goto(s, c, Marking(f, o.observation, ReadyEvidence(o.observation, o.observation, o.stop)))
      else Goto(s, c, Halted)
    else if f.n >= 4 then
      match Offline(s.j.digests, enrollment, f, o.observation, o.now)
      case Ok(ready) => Goto(s, c, Marking(f, o.observation, ready))
      case Err(_) => Goto(s, c, Halted)
    else Goto(s, c, Marking(f, o.observation, ReadyEvidence(o.observation, o.observation, o.stop)))
  }

  function Log(s: System, kind: External, operationID: ID, stepID: ID): System {
    s.(dispatched := s.dispatched + [Dispatch(kind, operationID, stepID)])
  }

  predicate MaintenanceConfirmed(s: System, enrollment: Enrollment, operationID: ID, f: Frame, at: Time, o: Oracle) {
    && !o.fail
    && o.receipt.operationID == operationID && o.receipt.stepID == f.a.stepID && o.receipt.closedAt >= at
    && FreshEvidence(o.receipt.closedAt, o.now) && |o.receipt.references| > 0
    && ValidateSafety(s.j.digests, o.closed, enrollment, f.i, o.now).Ok?
    && o.closed.admissionClosed && o.closed.maintenance && o.closed.players == 0
  }

  function DispatchStep(s: System, c: ID, f: Frame, at: Time, before: SafetyObservation, ready: ReadyEvidence,
                        o: Oracle)
    : System
    requires c in s.coordinators
  {
    var k := s.coordinators[c].operationID;
    var enrollment := s.coordinators[c].enrollment;
    match f.n
    case 0 => Goto(s, c, Recording(f, ClaimEvidence(k, f.i.intentDigest, f.op.epoch)))
    case 1 => Goto(s, c, Recording(f, SafetyEvidence(before)))
    case 2 =>
      Goto(Log(s, CloseAdmission, k, f.a.stepID), c,
           if MaintenanceConfirmed(s, enrollment, k, f, at, o)
           then Recording(f, MaintenanceEvidence(o.receipt, o.closed)) else GivingUp(f))
    case 3 =>
      Goto(Log(s, GracefulStop, k, f.a.stepID), c, if o.fail then GivingUp(f) else AwaitingStop(f, at, before))
    case 4 => Goto(s, c, Recording(f, StopReady(ready)))
    case _ =>
      Goto(Log(s, CreateBackup, k, f.a.stepID), c, Creating(f, NewRecord(enrollment, k, f, ready, o), CheckFirst))
  }

  function StopStep(s: System, c: ID, f: Frame, at: Time, before: SafetyObservation, o: Oracle): System
    requires c in s.coordinators
  {
    var request := StopRequest(s.coordinators[c].operationID, f.a.stepID, f.i.containerID, f.i.expectedBootID, at);
    var stop := JudgeStop(request, o.stop, o.now);
    Goto(s, c,
         if stop.state == StopConfirmed then Recording(f, StopReady(ReadyEvidence(before, o.observation, stop)))
         else if stop.state == StopFailed then RecordingOther(f, stop.attribution, stop.references)
         else if stop.containerID == request.containerID && stop.bootID == request.bootID &&
                 stop.lifecycleAvailable && !stop.running && FreshEvidence(stop.observedAt, o.now) &&
                 stop.attribution != Correlated
         then RecordingUnattributed(f, stop.references)
         else GivingUp(f))
  }

  function Texts(references: seq<string>): seq<Evidence> {
    seq(|references|, m requires 0 <= m < |references| => Text(references[m]))
  }

  /** After a failed Create the coordinator trusts only a fresh read of S05. */
  function AfterFailedCreate(s: System, c: ID, f: Frame, o: Oracle): System
    requires c in s.coordinators
  {
    var k := s.coordinators[c].operationID;
    if !o.fail && k in s.j.operations && |s.j.operations[k].payload.attempts| == 6 &&
       s.j.operations[k].payload.attempts[5].effect == ExpectedObserved &&
       s.j.operations[k].payload.attempts[5].attribution == Correlated
    then Goto(s, c, Halted)
    else Goto(s, c, GivingUp(f))
  }

  // ---- Create and Inspect ----------------------------------------------------

  ghost function CreateStep(s: System, c: ID, f: Frame, r: BackupRecord, phase: Phase, o: Oracle): System
    requires c in s.coordinators
  {
    var enrollment := s.coordinators[c].enrollment;
    var id := r.backupID;
    match phase
    case CheckFirst =>
      (match Offline(s.j.digests, enrollment, f, o.observation, o.now)
       case Ok(ready) =>
         if o.fail || Final(id) in s.files then Goto(s, c, CreateFailed(f))
         else Goto(s, c, Creating(f, r.(ready := ready), Reserving))
       case Err(_) => Goto(s, c, CreateFailed(f)))
    case Reserving => Perform(s, c, Reserve(r, o.now), o.lost, Creating(f, r, ToWriting), CreateFailed(f))
    case ToWriting => Perform(s, c, MoveBackup(id, BackupWriting), o.lost, Creating(f, r, Opening), CreateFailed(f))
    case Opening =>
      if o.fail || Partial(id) in s.files then Goto(s, c, CreateFailed(f))
      else Goto(s.(files := s.files[Partial(id) := []]), c, Creating(f, r, Archiving))
    case Archiving =>
      if o.fail || Partial(id) !in s.files then Goto(s, c, CreateFailed(f))
      else Goto(s.(files := s.files[Partial(id) := o.bytes]), c,
                Creating(f, r, if o.finished then ToFinalizing(o.bytes) else Archiving))
    case ToFinalizing(w) =>
      Perform(s, c, MoveBackup(id, BackupFinalizing), o.lost, Creating(f, r, Renaming(w)), CreateFailed(f))
    case Renaming(w) =>
      if o.fail || Partial(id) !in s.files || Final(id) in s.files then Goto(s, c, CreateFailed(f))
      else Goto(s.(files := s.files[Final(id) := s.files[Partial(id)]] - {Partial(id)}), c,
                if o.lost then CreateFailed(f) else Creating(f, r, ToVerifying(w)))
    case ToVerifying(w) =>
      Perform(s, c, MoveBackup(id, BackupVerifying), o.lost, Creating(f, r, Rereading(w)), CreateFailed(f))
    case Rereading(w) =>
      if o.fail || Final(id) !in s.files || s.j.digests.content(s.files[Final(id)]) != s.j.digests.content(w)
      then Goto(s, c, CreateFailed(f))
      else Goto(s.(checked := s.checked[id := (w, s.files[Final(id)])]), c,
                Creating(f, r, Rechecking(s.j.digests.content(s.files[Final(id)]), |s.files[Final(id)]|)))
    case Rechecking(digest, size) =>
      (match Offline(s.j.digests, enrollment, f, o.observation, o.now)
       case Ok(ready) =>
         if o.fail then Goto(s, c, CreateFailed(f)) else Goto(s, c, Creating(f, r, Completing(digest, size, ready)))
       case Err(_) => Goto(s, c, CreateFailed(f)))
    case Completing(digest, size, ready) =>
      (match Commit(s.j, Complete(id, digest, size, ready, o.now))
       case Ok(next) =>
         if o.lost then Goto(s.(j := next), c, CreateFailed(f))
         else Goto(s.(j := next, created := s.created + [id]), c, Loop(f.i, 6))
       case Err(_) => Goto(s, c, CreateFailed(f)))
  }

  ghost function InspectStep(s: System, c: ID, purpose: Purpose, id: ID, stage: Stage, o: Oracle): System
    requires c in s.coordinators
  {
    match stage
    case ReadRecord =>
      if id !in s.j.backups then Goto(s, c, Halted)
      else
        var r := s.j.backups[id].payload;
        if ValidateCompleted(r).Ok? then Goto(s, c, Inspecting(purpose, id, VerifyArchive(r)))
        else if r.status != BackupOrphaned then Goto(s, c, Inspecting(purpose, id, StatArchive))
        else Goto(s, c, Halted)
    case StatArchive =>
      if Final(id) in s.files then Goto(s, c, Inspecting(purpose, id, Orphaning)) else Goto(s, c, Halted)
    case Orphaning => Perform(s, c, MoveBackup(id, BackupOrphaned), o.lost, Halted, Halted)
    case VerifyArchive(r) =>
      if !o.fail && Final(id) in s.files && s.j.digests.content(s.files[Final(id)]) == r.archiveSHA256 &&
         |s.files[Final(id)]| == r.archiveSize && purpose.OfRun?
      then Goto(s, c, Finished(purpose.i))
      else Goto(s, c, Halted)
  }

  // ---- Runs ------------------------------------------------------------------

  ghost function TickStep(s: System, c: ID, o: Oracle): System
    requires c in s.coordinators
  {
    var k := s.coordinators[c].operationID;
    var enrollment := s.coordinators[c].enrollment;
    match s.coordinators[c].pc
    case Start =>
      if k in s.j.operations then Goto(s, c, Loaded(s.j.operations[k].payload)) else Goto(s, c, Halted)
    case Loaded(op) =>
      if op.intentID in s.j.intents &&
         CanContinue(s.j.digests, enrollment, op, s.j.intents[op.intentID].payload, o.now).Ok?
      then
        var i := s.j.intents[op.intentID].payload.intent;
        Goto(s, c, if op.status == Queued then Claiming(i) else Loop(i, 0))
      else Goto(s, c, Halted)
    case Claiming(i) => Perform(s, c, Transition(k, Preparing, NotStarted, false, o.now), o.lost, Loop(i, 0), Halted)
    case Loop(i, n) => LoopHead(s, c, i, n)
    case PreparingStep(i, op, n) => if n <= 5 then PrepareNext(s, c, i, op, n, o) else Goto(s, c, Halted)
    case Chosen(f) =>
      if f.n == 3 && f.op.status == Preparing
      then Perform(s, c, Transition(k, Executing, NotStarted, false, o.now), o.lost, Checking(f), Halted)
      else Goto(s, c, Checking(f))
    case Checking(f) => CheckStep(s, c, f, o)
    case Marking(f, before, ready) =>
      Perform(s, c, MarkPossible(k, f.a.stepID, o.now), o.lost, Dispatching(f, o.now, before, ready), Halted)
    case Dispatching(f, at, before, ready) => DispatchStep(s, c, f, at, before, ready, o)
    case AwaitingStop(f, at, before) => StopStep(s, c, f, at, before, o)
    case Recording(f, evidence) =>
      Perform(s, c, Record(k, f.a.stepID, ExpectedObserved, Correlated, [evidence], o.now), o.lost,
              Loop(f.i, f.n + 1), Halted)
    case RecordingOther(f, attribution, references) =>
      Perform(s, c, Record(k, f.a.stepID, OtherObserved, attribution, Texts(references), o.now), o.lost, Halted, Halted)
    case RecordingUnattributed(f, references) =>
      Perform(s, c, Record(k, f.a.stepID, ExpectedObserved, Unattributed, Texts(references), o.now), o.lost,
              MarkingUnknown, Halted)
    case MarkingUnknown => Perform(s, c, MarkUnresolved(k, o.now), o.lost, Halted, Halted)
    case GivingUp(f) =>
      Perform(s, c, Record(k, f.a.stepID, EffectUnknown, Unattributed, [Text("reason")], o.now), o.lost, Halted, Halted)
    case Creating(f, r, phase) => CreateStep(s, c, f, r, phase, o)
    case CreateFailed(f) => AfterFailedCreate(s, c, f, o)
    case Inspecting(purpose, id, stage) => InspectStep(s, c, purpose, id, stage, o)
    case Halted => s
    case Finished(_) => s
  }

  predicate Live(pc: Pc) {
    !pc.Halted? && !pc.Finished?
  }

  predicate Free(s: System, c: ID) {
    c in s.coordinators ==> !Live(s.coordinators[c].pc)
  }

  ghost function Next(s: System, action: Action): System {
    match action
    case Spawn(c, operationID, enrollment) =>
      if Free(s, c) then s.(coordinators := s.coordinators[c := Coordinator(operationID, enrollment, Start)]) else s
    case SpawnInspect(c, id, enrollment) =>
      if Free(s, c)
      then s.(coordinators := s.coordinators[c := Coordinator("", enrollment, Inspecting(Standalone, id, ReadRecord))])
      else s
    case Crash(c) => if c in s.coordinators && Live(s.coordinators[c].pc) then Goto(s, c, Halted) else s
    case Tick(c, o) => if c in s.coordinators then TickStep(s, c, o) else s
    case Client(call) => s.(j := Apply(s.j, call))
    case Tamper(name, bytes) => if name in s.files then s.(files := s.files[name := bytes]) else s
  }

  function Initial(digests: Digests): System {
    System(Empty(digests), map[], map[], [], [], map[])
  }

  ghost function Run(s: System, actions: seq<Action>): System {
    if actions == [] then s else Next(Run(s, actions[..|actions| - 1]), actions[|actions| - 1])
  }
}
