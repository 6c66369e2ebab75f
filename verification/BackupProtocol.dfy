/**
 The crash protocol of the offline backup: a journal record and two file names
 per backup, several creators and inspectors, and crashes anywhere. A Create
 that stops early is never promoted, retried or overwritten.
 */
module BackupProtocol {
  import opened Octets
  import opened Domain
  import opened Journal
  import opened JournalSafety
  import opened Workflow
  import opened AtMostOnce
  import opened Progress

  // ---- What records, files and creators have in common -------------------------

  function StatusOf(s: System, b: ID): BackupStatus
    requires b in s.j.backups
  {
    s.j.backups[b].payload.status
  }

  ghost predicate Reread(s: System, b: ID, digest: string, size: int) {
    && b in s.checked
    && digest == s.j.digests.content(s.checked[b].0) == s.j.digests.content(s.checked[b].1)
    && size == |s.checked[b].1|
  }

  /** Where the record and the files stand while a creator is in this phase. */
  ghost predicate PhaseOK(s: System, b: ID, phase: Phase) {
    && b in s.j.backups
    && match phase
       case CheckFirst => true
       case Reserving => true
       case ToWriting => StatusOf(s, b) == BackupReserved && Partial(b) !in s.files && Final(b) !in s.files
       case Opening => StatusOf(s, b) == BackupWriting && Partial(b) !in s.files && Final(b) !in s.files
       case Archiving => StatusOf(s, b) == BackupWriting && Final(b) !in s.files
       case ToFinalizing(_) => StatusOf(s, b) == BackupWriting && Final(b) !in s.files
       case Renaming(_) => StatusOf(s, b) == BackupFinalizing && Final(b) !in s.files
       case ToVerifying(_) => StatusOf(s, b) in {BackupFinalizing, BackupOrphaned} && Final(b) in s.files
       case Rereading(_) => StatusOf(s, b) in {BackupVerifying, BackupOrphaned} && Final(b) in s.files
       case Rechecking(digest, size) =>
         StatusOf(s, b) in {BackupVerifying, BackupOrphaned} && Final(b) in s.files && Reread(s, b, digest, size)
       case Completing(digest, size, _) =>
         StatusOf(s, b) in {BackupVerifying, BackupOrphaned} && Final(b) in s.files && Reread(s, b, digest, size)
  }

  ghost predicate CreatorsOK(s: System) {
    && (forall c | c in s.coordinators && Creator(s.coordinators[c].pc) ::
          PhaseOK(s, s.coordinators[c].pc.r.backupID, s.coordinators[c].pc.phase))
    && (forall c, d | c in s.coordinators && d in s.coordinators && c != d &&
                      Creator(s.coordinators[c].pc) && Creator(s.coordinators[d].pc) ::
          s.coordinators[c].pc.r.backupID != s.coordinators[d].pc.r.backupID)
  }

  /** The record of b, its two files and what its creator read back agree. */
  ghost predicate Fine(s: System, b: ID) {
    && (Final(b) in s.files ==>
          b in s.j.backups &&
          StatusOf(s, b) in {BackupFinalizing, BackupVerifying, BackupValid, BackupOrphaned})
    && (Partial(b) in s.files ==> b in s.j.backups)
    && (b in s.j.backups ==>
          && StatusOf(s, b) != BackupFailed && StatusOf(s, b) != BackupUnknown
          && (StatusOf(s, b) == BackupOrphaned ==> Final(b) in s.files)
          && (StatusOf(s, b) == BackupValid ==>
                Final(b) in s.files &&
                Reread(s, b, s.j.backups[b].payload.archiveSHA256, s.j.backups[b].payload.archiveSize)))
  }

  ghost predicate AllFine(s: System) {
    forall b :: Fine(s, b)
  }

  predicate Orphans(pc: Pc) {
    pc.Inspecting? && pc.stage.Orphaning?
  }

  ghost predicate InspectorsOK(s: System) {
    forall c | c in s.coordinators && Orphans(s.coordinators[c].pc) :: Final(s.coordinators[c].pc.id) in s.files
  }

  ghost predicate CreatedOK(s: System) {
    && (forall x :: 0 <= x < |s.created| ==>
                      s.created[x] in s.j.backups && StatusOf(s, s.created[x]) == BackupValid)
    && (forall x, y :: 0 <= x < y < |s.created| ==> s.created[x] != s.created[y])
  }

  ghost predicate Archived(s: System) {
    CreatorsOK(s) && AllFine(s) && InspectorsOK(s) && CreatedOK(s)
  }

  // ---- Steps that do not concern archives -----------------------------------------

  /** Nothing about backup b changed, except perhaps bytes inside its files. */
  ghost predicate Same(s: System, s': System, b: ID) {
    && s'.j.digests == s.j.digests
    && (b in s'.j.backups <==> b in s.j.backups) && (b in s.j.backups ==> s'.j.backups[b] == s.j.backups[b])
    && (Partial(b) in s'.files <==> Partial(b) in s.files) && (Final(b) in s'.files <==> Final(b) in s.files)
    && (b in s'.checked <==> b in s.checked) && (b in s.checked ==> s'.checked[b] == s.checked[b])
  }

  lemma SameIsFine(s: System, s': System, b: ID)
    requires Same(s, s', b)
    ensures Fine(s, b) ==> Fine(s', b)
    ensures forall phase :: PhaseOK(s, b, phase) ==> PhaseOK(s', b, phase)
  {
  }

  /** Coordinator c moved without touching records, files or creators. */
  ghost predicate Unrelated(s: System, s': System, c: ID) {
    && s'.j.digests == s.j.digests && s'.j.backups == s.j.backups && s'.files == s.files
    && s'.checked == s.checked && s'.created == s.created
    && c in s'.coordinators && s'.coordinators == s.coordinators[c := s'.coordinators[c]]
    && !Creator(s'.coordinators[c].pc) && !Orphans(s'.coordinators[c].pc)
  }

  // ---- Steps that concern one backup ------------------------------------------------

  ghost predicate Creates(s: System, c: ID, b: ID) {
    c in s.coordinators && Creator(s.coordinators[c].pc) && s.coordinators[c].pc.r.backupID == b
  }

  /** Coordinator c changed backup b at most, which it creates, has just reserved, or found orphaned. */
  ghost predicate Touches(s: System, s': System, c: ID, b: ID) {
    && (forall x :: x != b ==> Same(s, s', x))
    && c in s'.coordinators && s'.coordinators == s.coordinators[c := s'.coordinators[c]]
    && Fine(s', b)
    && s'.j.digests == s.j.digests
    && (Final(b) in s.files ==> Final(b) in s'.files)
    && (b in s.j.backups ==> b in s'.j.backups)
    && (b in s.j.backups && StatusOf(s, b) == BackupValid ==> StatusOf(s', b) == BackupValid)
    && (b in s.j.backups && StatusOf(s', b) == BackupValid && StatusOf(s, b) != BackupValid ==> Creates(s, c, b))
    && (s'.created == s.created ||
        (s'.created == s.created + [b] && b in s.j.backups && StatusOf(s, b) != BackupValid &&
         StatusOf(s', b) == BackupValid))
    && (Creator(s'.coordinators[c].pc) ==>
          Creates(s', c, b) && PhaseOK(s', b, s'.coordinators[c].pc.phase) && (Creates(s, c, b) || b !in s.j.backups))
    && (Orphans(s'.coordinators[c].pc) ==> s'.coordinators[c].pc.id == b && Final(b) in s'.files)
    && (Creates(s, c, b) || b !in s.j.backups || forall phase :: PhaseOK(s, b, phase) ==> PhaseOK(s', b, phase))
  }

  lemma TouchKeepsCreators(s: System, s': System, c: ID, b: ID)
    requires CreatorsOK(s) && Touches(s, s', c, b)
    ensures CreatorsOK(s')
  {
    hide Same, Fine, PhaseOK, Orphans, Reread;
    forall d | d in s'.coordinators && Creator(s'.coordinators[d].pc)
      ensures PhaseOK(s', s'.coordinators[d].pc.r.backupID, s'.coordinators[d].pc.phase)
      ensures d != c && Creator(s'.coordinators[c].pc) ==> s'.coordinators[d].pc.r.backupID != b
    {
      if d != c {
        var x := s.coordinators[d].pc.r.backupID;
        assert PhaseOK(s, x, s.coordinators[d].pc.phase);
        PhaseNeedsRecord(s, x, s.coordinators[d].pc.phase);
        if x != b { SameIsFine(s, s', x); }
      }
    }
  }

  lemma PhaseNeedsRecord(s: System, b: ID, phase: Phase)
    requires PhaseOK(s, b, phase)
    ensures b in s.j.backups
  {
  }

  lemma TouchKeepsArchives(s: System, s': System, c: ID, b: ID)
    requires Archived(s) && Touches(s, s', c, b)
    ensures Archived(s')
  {
    TouchKeepsCreators(s, s', c, b);
    hide CreatorsOK, Fine, PhaseOK, Reread;
    forall x ensures Fine(s', x) { if x != b { SameIsFine(s, s', x); } }
    forall d | d in s'.coordinators && Orphans(s'.coordinators[d].pc) && d != c
      ensures Final(s'.coordinators[d].pc.id) in s'.files
    {
      assert s.coordinators[d].pc.id == b || Same(s, s', s.coordinators[d].pc.id);
    }
    forall x | 0 <= x < |s.created|
      ensures s.created[x] in s'.j.backups && StatusOf(s', s.created[x]) == BackupValid
    {
      assert s.created[x] == b || Same(s, s', s.created[x]);
    }
  }

  lemma UnrelatedTouches(s: System, s': System, c: ID, b: ID)
    requires AllFine(s) && Unrelated(s, s', c)
    ensures Touches(s, s', c, b)
  {
    hide Fine, PhaseOK, Reread;
    forall x ensures Same(s, s', x) && (Fine(s, x) ==> Fine(s', x)) { SameIsFine(s, s', x); }
    SameIsFine(s, s', b);
  }

  /** The journal changed outside its backups, or bytes changed inside files. */
  lemma EnvironmentKeepsArchives(s: System, s': System)
    requires Archived(s) && s'.coordinators == s.coordinators
    requires s'.j.digests == s.j.digests && s'.j.backups == s.j.backups && s'.files.Keys == s.files.Keys
    requires s'.checked == s.checked && s'.created == s.created
    ensures Archived(s')
  {
    hide Fine, PhaseOK, Reread;
    forall x ensures Fine(s', x) { SameIsFine(s, s', x); }
    forall d | d in s'.coordinators && Creator(s'.coordinators[d].pc)
      ensures PhaseOK(s', s'.coordinators[d].pc.r.backupID, s'.coordinators[d].pc.phase)
    {
      SameIsFine(s, s', s.coordinators[d].pc.r.backupID);
    }
  }

  lemma StepCallKeepsBackups(j: Journal, call: Call)
    requires StepCall(call)
    ensures Apply(j, call).backups == j.backups && Apply(j, call).digests == j.digests
  {
    hide FindStep, SaveOperation;
  }

  lemma OperatorCallKeepsBackups(j: Journal, call: Call)
    requires OperatorCall(call)
    ensures Apply(j, call).backups == j.backups && Apply(j, call).digests == j.digests
  {
    hide ActiveOwner, SaveOperation, UpdateIntent, HasOperationFor, OperationFor;
  }

  // ---- Steps outside Create and Inspect ----------------------------------------------

  predicate Bystander(pc: Pc) {
    !Creator(pc) && !Orphans(pc)
  }

  lemma PerformIsUnrelated(s: System, c: ID, call: Call, lost: bool, ok: Pc, failed: Pc)
    requires c in s.coordinators && StepCall(call) && Bystander(ok) && Bystander(failed)
    ensures Unrelated(s, Perform(s, c, call, lost, ok, failed), c)
  {
    hide Commit, Creator, Orphans;
    StepCallKeepsBackups(s.j, call);
  }

  predicate Calls(pc: Pc) {
    pc.Claiming? || (pc.Chosen? && pc.f.n == 3 && pc.f.op.status == Preparing) || pc.Marking? || pc.Recording? ||
    pc.RecordingOther? || pc.RecordingUnattributed? || pc.MarkingUnknown? || pc.GivingUp? || pc.PreparingStep?
  }

  lemma CallingIsUnrelated(s: System, c: ID, o: Oracle)
    requires c in s.coordinators && Calls(s.coordinators[c].pc)
    ensures Unrelated(s, TickStep(s, c, o), c)
  {
    hide Perform, Unrelated, Texts, PrepareStep, LoopHead, CheckStep, DispatchStep, StopStep, AfterFailedCreate,
      CreateStep, InspectStep;
    var k := s.coordinators[c].operationID;
    match s.coordinators[c].pc
    case Claiming(i) =>
      PerformIsUnrelated(s, c, Transition(k, Preparing, NotStarted, false, o.now), o.lost, Loop(i, 0), Halted);
    case Chosen(f) =>
      PerformIsUnrelated(s, c, Transition(k, Executing, NotStarted, false, o.now), o.lost, Checking(f), Halted);
    case Marking(f, before, ready) =>
      PerformIsUnrelated(s, c, MarkPossible(k, f.a.stepID, o.now), o.lost, Dispatching(f, o.now, before, ready),
                         Halted);
    case Recording(f, evidence) =>
      PerformIsUnrelated(s, c, Record(k, f.a.stepID, ExpectedObserved, Correlated, [evidence], o.now), o.lost,
                         Loop(f.i, f.n + 1), Halted);
    case RecordingOther(f, attribution, references) =>
      PerformIsUnrelated(s, c, Record(k, f.a.stepID, OtherObserved, attribution, Texts(references), o.now), o.lost,
                         Halted,
                         Halted);
    case RecordingUnattributed(f, references) =>
      PerformIsUnrelated(s, c, Record(k, f.a.stepID, ExpectedObserved, Unattributed, Texts(references), o.now), o.lost,
                         MarkingUnknown, Halted);
    case MarkingUnknown => PerformIsUnrelated(s, c, MarkUnresolved(k, o.now), o.lost, Halted, Halted);
    case GivingUp(f) =>
      PerformIsUnrelated(s, c, Record(k, f.a.stepID, EffectUnknown, Unattributed, [Text("reason")], o.now), o.lost,
                         Halted,
                         Halted);
    case PreparingStep(i, op, n) => PreparingIsUnrelated(s, c, o);
    case _ =>
  }

  lemma PreparingIsUnrelated(s: System, c: ID, o: Oracle)
    requires c in s.coordinators && s.coordinators[c].pc.PreparingStep?
    ensures Unrelated(s, TickStep(s, c, o), c)
  {
    hide PrepareStep, Perform, LoopHead, CheckStep, DispatchStep, StopStep, AfterFailedCreate, CreateStep,
      InspectStep, Apply;
    var PreparingStep(i, op, n) := s.coordinators[c].pc;
    if n <= 5 {
      var k := s.coordinators[c].operationID;
      var t := PrepareStep(s.j, k, FIXED_STEPS[n], o.now, o.freshID);
      var ok := if t.Ok? then Chosen(Frame(i, op, n, t.value.1)) else Halted;
      PerformIsPrepare(s, c, o, ok);
      PerformIsUnrelated(s, c, Prepare(k, FIXED_STEPS[n], o.now, o.freshID), o.lost, ok, Halted);
    }
  }

  lemma ReadingIsUnrelated(s: System, c: ID, o: Oracle)
    requires c in s.coordinators && var pc := s.coordinators[c].pc; pc.Start? || pc.Loaded? || pc.Loop?
    ensures Unrelated(s, TickStep(s, c, o), c)
  {
    hide Perform, PrepareNext, CanContinue, CheckStep, DispatchStep, StopStep, AfterFailedCreate, CreateStep,
      InspectStep;
  }

  lemma ObservingIsUnrelated(s: System, c: ID, o: Oracle)
    requires c in s.coordinators && var pc := s.coordinators[c].pc; pc.Checking? || pc.AwaitingStop? || pc.CreateFailed?
    ensures Unrelated(s, TickStep(s, c, o), c)
  {
    hide Perform, LoopHead, PrepareNext, DispatchStep, Offline, ValidateSafety, SafeBefore, JudgeStop, CreateStep,
      InspectStep;
  }

  lemma DispatchingIsUnrelated(s: System, c: ID, o: Oracle)
    requires c in s.coordinators && var pc := s.coordinators[c].pc; (pc.Chosen? && !Calls(pc)) || pc.Dispatching?
    ensures Unrelated(s, TickStep(s, c, o), c)
  {
    hide Perform, LoopHead, PrepareNext, CheckStep, StopStep, AfterFailedCreate, MaintenanceConfirmed, CreateStep,
      InspectStep, NewRecord;
  }

  // ---- Create ---------------------------------------------------------------------------

  lemma PhaseOf(s: System, c: ID)
    requires Archived(s) && c in s.coordinators && Creator(s.coordinators[c].pc)
    ensures PhaseOK(s, s.coordinators[c].pc.r.backupID, s.coordinators[c].pc.phase) && AllFine(s)
  {
    hide Fine, PhaseOK;
  }

  lemma ReservedRecord(j: Journal, r: BackupRecord, now: Time)
    requires Commit(j, Reserve(r, now)).Ok?
    ensures var j' := Apply(j, Reserve(r, now));
            && j'.digests == j.digests && r.backupID !in j.backups && r.status == BackupReserved
            && r.backupID in j'.backups && j'.backups == j.backups[r.backupID := j'.backups[r.backupID]]
            && j'.backups[r.backupID].payload == r
  {
    hide ValidateReady, MatchesIntent;
  }

  lemma ReservingTouches(s: System, c: ID, o: Oracle)
    requires AllFine(s) && c in s.coordinators && s.coordinators[c].pc.Creating? &&
             s.coordinators[c].pc.phase.Reserving?
    ensures Touches(s,
                    CreateStep(s, c, s.coordinators[c].pc.f, s.coordinators[c].pc.r, s.coordinators[c].pc.phase, o), c,
                    s.coordinators[c].pc.r.backupID)
  {
    hide Commit, Offline;
    var Creating(f, r, phase) := s.coordinators[c].pc;
    assert Fine(s, r.backupID);
    if Commit(s.j, Reserve(r, o.now)).Ok? {
      ReservedRecord(s.j, r, o.now);
    } else {
      UnrelatedTouches(s, CreateStep(s, c, f, r, phase, o), c, r.backupID);
    }
  }

  lemma MovedRecord(j: Journal, b: ID, to: BackupStatus)
    ensures var j' := Apply(j, MoveBackup(b, to));
            && j'.digests == j.digests
            && (Commit(j, MoveBackup(b, to)).Err? ==> j' == j)
            && (Commit(j, MoveBackup(b, to)).Ok? ==>
                  && b in j.backups && CanTransitionBackup(j.backups[b].payload.status, to)
                  && b in j'.backups && j'.backups == j.backups[b := j'.backups[b]] &&
                    j'.backups[b].payload.status == to)
  {
  }

  /** The owner's step touches its backup alone; what remains is the state it leaves there. */
  lemma OwnerTouches(s: System, s': System, c: ID, b: ID)
    requires Creates(s, c, b) && c in s'.coordinators && b in s.j.backups && b in s'.j.backups
    requires s'.coordinators == s.coordinators[c := s'.coordinators[c]]
    requires s'.j.digests == s.j.digests && s'.j.backups == s.j.backups[b := s'.j.backups[b]]
    requires s'.files - {Partial(b), Final(b)} == s.files - {Partial(b), Final(b)} &&
             s'.checked - {b} == s.checked - {b}
    requires Final(b) in s.files ==> Final(b) in s'.files
    requires StatusOf(s, b) != BackupValid && Fine(s', b) && !Orphans(s'.coordinators[c].pc)
    requires s'.created == s.created || (s'.created == s.created + [b] && StatusOf(s', b) == BackupValid)
    requires Creator(s'.coordinators[c].pc) ==> Creates(s', c, b) && PhaseOK(s', b, s'.coordinators[c].pc.phase)
    ensures Touches(s, s', c, b)
  {
    hide Fine, PhaseOK, Creator, Orphans;
    forall x | x != b ensures Same(s, s', x) {
      assert Final(x) in s.files <==> Final(x) in s.files - {Partial(b), Final(b)};
      assert Final(x) in s'.files <==> Final(x) in s'.files - {Partial(b), Final(b)};
      assert Partial(x) in s.files <==> Partial(x) in s.files - {Partial(b), Final(b)};
      assert Partial(x) in s'.files <==> Partial(x) in s'.files - {Partial(b), Final(b)};
      assert x in s.checked <==> x in s.checked - {b};
      assert x in s'.checked <==> x in s'.checked - {b};
      if x in s.checked { assert s.checked[x] == (s.checked - {b})[x] == (s'.checked - {b})[x] == s'.checked[x]; }
    }
  }

  lemma MovingTouches(s: System, c: ID, o: Oracle)
    requires c in s.coordinators && Creator(s.coordinators[c].pc) && AllFine(s)
    requires PhaseOK(s, s.coordinators[c].pc.r.backupID, s.coordinators[c].pc.phase)
    requires var phase := s.coordinators[c].pc.phase; phase.ToWriting? || phase.ToFinalizing? || phase.ToVerifying?
    ensures Touches(s,
                    CreateStep(s, c, s.coordinators[c].pc.f, s.coordinators[c].pc.r, s.coordinators[c].pc.phase, o), c,
                    s.coordinators[c].pc.r.backupID)
  {
    hide Commit, Offline, Touches;
    var b := s.coordinators[c].pc.r.backupID;
    assert Fine(s, b);
    MovedRecord(s.j, b, BackupWriting);
    MovedRecord(s.j, b, BackupFinalizing);
    MovedRecord(s.j, b, BackupVerifying);
    OwnerTouches(s, CreateStep(s, c, s.coordinators[c].pc.f, s.coordinators[c].pc.r, s.coordinators[c].pc.phase, o),
                 c, b);
  }

  lemma WritingTouches(s: System, c: ID, o: Oracle)
    requires c in s.coordinators && Creator(s.coordinators[c].pc) && AllFine(s)
    requires PhaseOK(s, s.coordinators[c].pc.r.backupID, s.coordinators[c].pc.phase)
    requires var phase := s.coordinators[c].pc.phase; phase.Opening? || phase.Archiving? || phase.Renaming?
    ensures Touches(s,
                    CreateStep(s, c, s.coordinators[c].pc.f, s.coordinators[c].pc.r, s.coordinators[c].pc.phase, o), c,
                    s.coordinators[c].pc.r.backupID)
  {
    hide Commit, Perform, Offline, Touches;
    var b := s.coordinators[c].pc.r.backupID;
    assert Fine(s, b);
    OwnerTouches(s, CreateStep(s, c, s.coordinators[c].pc.f, s.coordinators[c].pc.r, s.coordinators[c].pc.phase, o),
                 c, b);
  }

  lemma RereadingTouches(s: System, c: ID, o: Oracle)
    requires c in s.coordinators && Creator(s.coordinators[c].pc) && AllFine(s)
    requires PhaseOK(s, s.coordinators[c].pc.r.backupID, s.coordinators[c].pc.phase)
    requires var phase := s.coordinators[c].pc.phase; phase.Rereading? || phase.Rechecking?
    ensures Touches(s,
                    CreateStep(s, c, s.coordinators[c].pc.f, s.coordinators[c].pc.r, s.coordinators[c].pc.phase, o), c,
                    s.coordinators[c].pc.r.backupID)
  {
    hide Commit, Perform, Offline, Touches;
    var b := s.coordinators[c].pc.r.backupID;
    assert Fine(s, b);
    OwnerTouches(s, CreateStep(s, c, s.coordinators[c].pc.f, s.coordinators[c].pc.r, s.coordinators[c].pc.phase, o),
                 c, b);
  }

  lemma CompletedRecord(j: Journal, b: ID, digest: string, size: int, ready: ReadyEvidence, now: Time)
    requires Commit(j, Complete(b, digest, size, ready, now)).Ok?
    ensures var j' := Apply(j, Complete(b, digest, size, ready, now));
            && j'.digests == j.digests && b in j.backups && j.backups[b].payload.status == BackupVerifying
            && b in j'.backups && j'.backups == j.backups[b := j'.backups[b]]
            && var r := j'.backups[b].payload;
               r.status == BackupValid && r.archiveSHA256 == digest && r.archiveSize == size
  {
    hide ValidateReady, SaveOperation;
  }

  lemma CompletingTouches(s: System, c: ID, o: Oracle)
    requires c in s.coordinators && Creator(s.coordinators[c].pc) && AllFine(s)
    requires PhaseOK(s, s.coordinators[c].pc.r.backupID, s.coordinators[c].pc.phase)
    requires s.coordinators[c].pc.phase.Completing?
    ensures Touches(s,
                    CreateStep(s, c, s.coordinators[c].pc.f, s.coordinators[c].pc.r, s.coordinators[c].pc.phase, o),
                      c, s.coordinators[c].pc.r.backupID)
  {
    hide Commit, Perform,  Offline;
    var Creating(f, r, phase) := s.coordinators[c].pc;
    assert Fine(s, r.backupID);
    if Commit(s.j, Complete(r.backupID, phase.digest, phase.size, phase.ready, o.now)).Ok? {
      CompletedRecord(s.j, r.backupID, phase.digest, phase.size, phase.ready, o.now);
    }
  }

  // ---- Inspect ----------------------------------------------------------------------------

  lemma OrphaningTouches(s: System, c: ID, lost: bool)
    requires c in s.coordinators && Orphans(s.coordinators[c].pc) && AllFine(s) &&
             Final(s.coordinators[c].pc.id) in s.files
    ensures Touches(s, Perform(s, c, MoveBackup(s.coordinators[c].pc.id, BackupOrphaned), lost, Halted, Halted), c,
                    s.coordinators[c].pc.id)
  {
    hide Commit;
    var b := s.coordinators[c].pc.id;
    assert Fine(s, b);
    MovedRecord(s.j, b, BackupOrphaned);
  }

  lemma InspectTouches(s: System, c: ID, o: Oracle)
    requires c in s.coordinators && s.coordinators[c].pc.Inspecting? && AllFine(s)
    requires Orphans(s.coordinators[c].pc) ==> Final(s.coordinators[c].pc.id) in s.files
    ensures Touches(s,
                    InspectStep(s, c, s.coordinators[c].pc.purpose, s.coordinators[c].pc.id,
                                s.coordinators[c].pc.stage, o),
                    c, s.coordinators[c].pc.id)
  {
    hide Commit, Perform, ValidateCompleted, AllFine, Touches;
    var Inspecting(purpose, b, stage) := s.coordinators[c].pc;
    match stage
    case Orphaning => OrphaningTouches(s, c, o.lost);
    case StatArchive =>
      if Final(b) in s.files { StatTouches(s, c); }
      else { UnrelatedTouches(s, InspectStep(s, c, purpose, b, stage, o), c, b); }
    case _ => UnrelatedTouches(s, InspectStep(s, c, purpose, b, stage, o), c, b);
  }

  lemma StatTouches(s: System, c: ID)
    requires c in s.coordinators && s.coordinators[c].pc.Inspecting? && AllFine(s) &&
             Final(s.coordinators[c].pc.id) in s.files
    ensures var Inspecting(purpose, b, _) := s.coordinators[c].pc;
            Touches(s, Goto(s, c, Inspecting(purpose, b, Orphaning)), c, b)
  {
    var Inspecting(purpose, b, _) := s.coordinators[c].pc;
    var s' := Goto(s, c, Inspecting(purpose, b, Orphaning));
    hide Fine, PhaseOK;
    forall x ensures Same(s, s', x) && (Fine(s, x) ==> Fine(s', x)) { SameIsFine(s, s', x); }
    SameIsFine(s, s', b);
  }

  // ---- Every step -----------------------------------------------------------------------------

  function Subject(pc: Pc): ID {
    match pc
    case Creating(_, r, _) => r.backupID
    case Inspecting(_, id, _) => id
    case _ => ""
  }

  lemma CreateTouches(s: System, c: ID, o: Oracle)
    requires Archived(s) && c in s.coordinators && s.coordinators[c].pc.Creating?
    ensures var Creating(f, r, phase) := s.coordinators[c].pc;
            Touches(s, CreateStep(s, c, f, r, phase, o), c, r.backupID)
  {
    assert AllFine(s);
    hide Archived, AllFine, Touches, PhaseOK, Commit, Perform, Offline;
    var Creating(f, r, phase) := s.coordinators[c].pc;
    if phase.CheckFirst? { UnrelatedTouches(s, CreateStep(s, c, f, r, phase, o), c, r.backupID); }
    else if phase.Reserving? { ReservingTouches(s, c, o); }
    else {
      PhaseOf(s, c);
      hide CreateStep;
      if phase.Completing? { CompletingTouches(s, c, o); }
      else if phase.Rereading? || phase.Rechecking? { RereadingTouches(s, c, o); }
      else if phase.Opening? || phase.Archiving? || phase.Renaming? { WritingTouches(s, c, o); }
      else { MovingTouches(s, c, o); }
    }
  }

  lemma TickTouches(s: System, c: ID, o: Oracle)
    requires Archived(s) && c in s.coordinators && Live(s.coordinators[c].pc)
    ensures Touches(s, TickStep(s, c, o), c, Subject(s.coordinators[c].pc))
  {
    assert AllFine(s) && (Orphans(s.coordinators[c].pc) ==> Final(s.coordinators[c].pc.id) in s.files);
    hide Archived, AllFine, Touches, Unrelated, LoopHead, PrepareNext, CheckStep, DispatchStep, StopStep,
      AfterFailedCreate, CreateStep, InspectStep, Perform;
    var pc := s.coordinators[c].pc;
    if pc.Creating? { CreateTouches(s, c, o); }
    else if pc.Inspecting? { InspectTouches(s, c, o); }
    else {
      hide TickStep;
      if pc.Start? || pc.Loaded? || pc.Loop? { ReadingIsUnrelated(s, c, o); }
      else if pc.Checking? || pc.AwaitingStop? || pc.CreateFailed? { ObservingIsUnrelated(s, c, o); }
      else if (pc.Chosen? && !Calls(pc)) || pc.Dispatching? { DispatchingIsUnrelated(s, c, o); }
      else { CallingIsUnrelated(s, c, o); }
      UnrelatedTouches(s, TickStep(s, c, o), c, "");
    }
  }

  function Actor(action: Action): ID {
    match action
    case Spawn(c, _, _) => c
    case SpawnInspect(c, _, _) => c
    case Crash(c) => c
    case Tick(c, _) => c
    case _ => ""
  }

  function SubjectOf(s: System, action: Action): ID {
    if action.Tick? && action.c in s.coordinators then Subject(s.coordinators[action.c].pc) else ""
  }

  /** Every action touches one backup, or only coordinators elsewhere, or nothing of any backup's standing. */
  lemma NextTouches(s: System, action: Action)
    requires Archived(s) && Internal(action)
    ensures var s' := Next(s, action);
            || (s'.j.digests == s.j.digests && s'.j.backups == s.j.backups && s'.files.Keys == s.files.Keys &&
                s'.checked == s.checked && s'.created == s.created && s'.coordinators == s.coordinators)
            || Touches(s, s', Actor(action), SubjectOf(s, action))
  {
    assert AllFine(s);
    hide Archived, AllFine, Touches, TickStep, Apply;
    match action
    case Spawn(c, _, _) => if Free(s, c) { UnrelatedTouches(s, Next(s, action), c, ""); }
    case SpawnInspect(c, _, _) => if Free(s, c) { UnrelatedTouches(s, Next(s, action), c, ""); }
    case Crash(c) =>
      if c in s.coordinators && Live(s.coordinators[c].pc) { UnrelatedTouches(s, Next(s, action), c, ""); }
    case Tick(c, o) =>
      if c in s.coordinators {
        if Live(s.coordinators[c].pc) { TickTouches(s, c, o); } else { StoppedStays(s, c, o); }
      }
    case Client(call) => OperatorCallKeepsBackups(s.j, call);
    case Tamper(name, bytes) =>
  }

  lemma NextIsArchived(s: System, action: Action)
    requires Archived(s) && Internal(action)
    ensures Archived(Next(s, action))
  {
    hide Archived, Next, Internal, Touches;
    NextTouches(s, action);
    if Touches(s, Next(s, action), Actor(action), SubjectOf(s, action)) {
      TouchKeepsArchives(s, Next(s, action), Actor(action), SubjectOf(s, action));
    } else {
      EnvironmentKeepsArchives(s, Next(s, action));
    }
  }

  lemma {:induction false} RunIsArchived(digests: Digests, actions: seq<Action>)
    requires AllInternal(actions)
    ensures Archived(Run(Initial(digests), actions))
  {
    if actions == [] {
    } else {
      hide Archived, Next, Internal;
      RunIsArchived(digests, actions[..|actions| - 1]);
      NextIsArchived(Run(Initial(digests), actions[..|actions| - 1]), actions[|actions| - 1]);
    }
  }

  // ---- What the protocol guarantees ---------------------------------------------------------------

  /** A VALID record describes bytes that its creator wrote, read back from the final file and compared. */
  lemma ValidMeansReread(digests: Digests, actions: seq<Action>, b: ID)
    requires AllInternal(actions)
    ensures var s := Run(Initial(digests), actions);
            b in s.j.backups && s.j.backups[b].payload.status == BackupValid ==>
              && Final(b) in s.files && b in s.checked
              && var r := s.j.backups[b].payload;
              && r.archiveSHA256 == s.j.digests.content(s.checked[b].0) == s.j.digests.content(s.checked[b].1)
              && r.archiveSize == |s.checked[b].1|
  {
    hide Run;
    RunIsArchived(digests, actions);
    assert Fine(Run(Initial(digests), actions), b);
  }

  /** A final archive never appears before its record is FINALIZING, and a record is orphaned only beside one. */
  lemma FinalArchiveNeedsRecord(digests: Digests, actions: seq<Action>, b: ID)
    requires AllInternal(actions)
    ensures var s := Run(Initial(digests), actions);
            && (Final(b) in s.files ==>
                  b in s.j.backups &&
                  s.j.backups[b].payload.status in {BackupFinalizing, BackupVerifying, BackupValid, BackupOrphaned})
            && (b in s.j.backups && s.j.backups[b].payload.status in {BackupOrphaned, BackupValid} ==>
                Final(b) in s.files)
  {
    hide Run;
    RunIsArchived(digests, actions);
    assert Fine(Run(Initial(digests), actions), b);
  }

  /** At most one Create per backup returns success, and what it created is and stays VALID. */
  lemma CreateSucceedsOnce(digests: Digests, actions: seq<Action>, x: nat)
    requires AllInternal(actions) && x < |Run(Initial(digests), actions).created|
    ensures var s := Run(Initial(digests), actions);
            && s.created[x] in s.j.backups && s.j.backups[s.created[x]].payload.status == BackupValid
            && forall y :: 0 <= y < |s.created| && y != x ==> s.created[y] != s.created[x]
  {
    hide Run;
    RunIsArchived(digests, actions);
  }

  /** A backup nobody creates any more and that never became VALID. */
  ghost predicate Abandoned(s: System, b: ID) {
    b in s.j.backups && StatusOf(s, b) != BackupValid && forall c :: !Creates(s, c, b)
  }

  lemma AbandonedByStep(s: System, s': System, c: ID, x: ID, b: ID)
    requires Touches(s, s', c, x) && Abandoned(s, b)
    ensures Abandoned(s', b)
  {
    hide Fine, PhaseOK, Creator, Orphans;
    assert b == x || Same(s, s', b);
    forall d ensures !Creates(s', d, b) {
      assert !Creates(s, d, b);
    }
  }

  lemma NextKeepsAbandoned(s: System, action: Action, b: ID)
    requires Archived(s) && Internal(action) && Abandoned(s, b)
    ensures Abandoned(Next(s, action), b)
  {
    NextTouches(s, action);
    hide Archived, Next, Internal, Touches;
    var s' := Next(s, action);
    if Touches(s, s', Actor(action), SubjectOf(s, action)) {
      AbandonedByStep(s, s', Actor(action), SubjectOf(s, action), b);
    } else {
      forall d ensures !Creates(s', d, b) { assert !Creates(s, d, b); }
    }
  }

  /** An abandoned backup is never promoted to VALID and no later Create takes it over, whatever happens next. */
  lemma {:induction false} AbandonedForever(digests: Digests, actions: seq<Action>, more: seq<Action>, b: ID)
    requires AllInternal(actions) && AllInternal(more) && Abandoned(Run(Initial(digests), actions), b)
    ensures Abandoned(Run(Initial(digests), actions + more), b)
    decreases |more|
  {
    hide Abandoned, Internal, Next;
    if more == [] {
      assert actions + more == actions;
    } else {
      var all, last := actions + more, more[|more| - 1];
      assert all[..|all| - 1] == actions + more[..|more| - 1];
      AbandonedForever(digests, actions, more[..|more| - 1], b);
      RunIsArchived(digests, all[..|all| - 1]);
      NextKeepsAbandoned(Run(Initial(digests), all[..|all| - 1]), last, b);
    }
  }

  /** A creator that stops for any reason without completing leaves its backup abandoned. */
  lemma StoppingAbandons(s: System, action: Action, c: ID, b: ID)
    requires Archived(s) && Internal(action) && Creates(s, c, b) && !Creates(Next(s, action), c, b)
    ensures b in Next(s, action).j.backups
    ensures StatusOf(Next(s, action), b) == BackupValid || Abandoned(Next(s, action), b)
  {
    NextTouches(s, action);
    PhaseOf(s, c);
    var s' := Next(s, action);
    assert forall d :: d != c ==> !Creates(s, d, b);
    hide Next, Internal, Fine;
    if Touches(s, s', Actor(action), SubjectOf(s, action)) {
      var x := SubjectOf(s, action);
      assert b == x || Same(s, s', b);
      forall d ensures !Creates(s', d, b) {
        assert d != c ==> !Creates(s, d, b);
      }
    }
  }

  lemma CreatorNeverOverwrites(s: System, c: ID, f: Frame, r: BackupRecord, phase: Phase, o: Oracle, b: ID)
    requires c in s.coordinators && Final(b) in s.files
    ensures var s' := CreateStep(s, c, f, r, phase, o); Final(b) in s'.files && s'.files[Final(b)] == s.files[Final(b)]
  {
    hide Offline, Commit;
  }

  lemma TickNeverOverwrites(s: System, c: ID, o: Oracle, b: ID)
    requires c in s.coordinators && Final(b) in s.files
    ensures Final(b) in TickStep(s, c, o).files && TickStep(s, c, o).files[Final(b)] == s.files[Final(b)]
  {
    hide LoopHead, PrepareNext, CheckStep, DispatchStep, StopStep, AfterFailedCreate, CreateStep, Commit,
      ValidateCompleted, CanContinue;
    var pc := s.coordinators[c].pc;
    if !Live(pc) { StoppedStays(s, c, o); }
    else if pc.Creating? { CreatorNeverOverwrites(s, c, pc.f, pc.r, pc.phase, o, b); }
    else if pc.Inspecting? { }
    else if pc.Start? || pc.Loaded? || pc.Loop? { ReadingIsUnrelated(s, c, o); }
    else if pc.Checking? || pc.AwaitingStop? || pc.CreateFailed? { ObservingIsUnrelated(s, c, o); }
    else if (pc.Chosen? && !Calls(pc)) || pc.Dispatching? { DispatchingIsUnrelated(s, c, o); }
    else { CallingIsUnrelated(s, c, o); }
  }

  /** Once a final archive exists no step of the engine removes it or writes over it. */
  lemma FinalArchiveIsNeverOverwritten(s: System, action: Action, b: ID)
    requires Final(b) in s.files && !action.Tamper?
    ensures Final(b) in Next(s, action).files && Next(s, action).files[Final(b)] == s.files[Final(b)]
  {
    hide TickStep, Apply;
    if action.Tick? && action.c in s.coordinators { TickNeverOverwrites(s, action.c, action.o, b); }
  }
}
