/**
 Everything a service can be asked from its start on. Whatever the requests and the world, every executor
 call of a required action has its own granted approval; only its expiry is checked too early.
 */
module RunnerHistory {
  import opened Octets
  import opened Capability
  import opened RunnerState
  import opened RunnerService

  datatype Request =
    | Create(runID: ID, service: string, plan: seq<ToolCall>, ttl: int, stops: bool, now: Time)
    | StepOnce(runID: ID, approvalID: ID, spell: Spell)
    | StepOn(runID: ID, approvalID: ID, spells: nat -> Spell)
    | Grant(approvalID: ID, now: Time)
    | Refuse(approvalID: ID)

  /** Serves one request; identifiers are drawn anew for each, so one that is taken serves nothing. */
  method Serve(s: Service, request: Request)
    requires s.Valid() && forall p :: s.sha(p) != ""
    modifies s
    ensures s.Valid()
  {
    match request
    case Create(runID, service, plan, ttl, stops, now) =>
      if runID !in s.runs { var run := s.CreateRun(runID, service, plan, ttl, stops, now); }
    case StepOnce(runID, approvalID, spell) =>
      if approvalID !in s.approvals { var outcome := s.Step(runID, approvalID, spell); }
    case StepOn(runID, approvalID, spells) =>
      if approvalID !in s.approvals { var outcome := s.RunUntilBlocked(runID, approvalID, spells); }
    case Grant(approvalID, now) =>
      var outcome := s.Approve(approvalID, now);
    case Refuse(approvalID) =>
      var outcome := s.Reject(approvalID);
  }

  /**
   Serves any requests from the start. Every executor call of an action whose mode is REQUIRED has an approval that
   was granted, unexpired when it was checked, and bound to the run, action, arguments, resource and scope hash of the
   call, and status, pid and generation of the service were queried in between and read as they did when approval was
   asked for; and no approval backs two calls. Every call stays inside the scope of its run, and one on an approval was
   checked while the run was authorized and had not expired.
   */
  method ServeAll(sha: Hash, bind: Binding -> string, ttl: int, requests: seq<Request>) returns (s: Service)
    requires forall p :: sha(p) != ""
    ensures fresh(s)
    ensures forall x :: 0 <= x < |s.log| ==>
              var e := s.log[x];
              && e.mode.Some? && e.checkedAt <= e.calledAt
              && (e.mode == Some(Required) ==>
                    && e.approval.Some?
                    && var a := e.approval.value;
                    && a.status == Granted && e.checkedAt < a.expiresAt && a.runID == e.runID && a.action == e.action
                    && a.args == e.args && Some(a.resource) == Resource(e.args) && a.scopeHash == e.scopeHash
                    && a.precondition.Some? && e.observed.Some?
                    && forall key | key in {"status", "pid", "generation"} && key in a.precondition.value ::
                         (if key in e.observed.value then e.observed.value[key] else Null) == a.precondition.value[key])
    ensures forall x :: 0 <= x < |s.log| ==>
              var e := s.log[x];
              && e.runID in s.runs
              && var scope := s.runs[e.runID].scope;
              && e.scopeHash == scope.hash && e.action in scope.actions && Governs(scope.rules, e.action, e.mode.value)
              && "service" in e.args && e.args["service"].Text? && e.args["service"].text in scope.services
              && (e.approval.Some? ==> s.runs[e.runID].authorized && e.checkedAt < s.runs[e.runID].expiresAt)
    ensures forall x, y :: 0 <= x < y < |s.log| && s.log[x].approval.Some? && s.log[y].approval.Some? ==>
              s.log[x].approval.value.id != s.log[y].approval.value.id
  {
    hide Inv;
    s := new Service(sha, bind, ttl);
    for n := 0 to |requests|
      invariant fresh(s) && s.Valid() && s.sha == sha
    {
      Serve(s, requests[n]);
    }
    LogFacts(sha, s.State(), s.clock);
    hide Governs;
    forall x | 0 <= x < |s.log|
      ensures Governs(s.runs[s.log[x].runID].scope.rules, s.log[x].action, s.log[x].mode.value)
    {
      assert InScope(s.runs, s.log[x]);
      ModeIsGoverned(s.runs[s.log[x].runID].scope.rules, s.log[x].action, s.log[x].mode.value);
    }
    forall x | 0 <= x < |s.log| && s.log[x].mode == Some(Required)
      ensures !Differs(s.log[x].approval.value.precondition.value, s.log[x].observed.value)
    {
      DiffersIff(s.log[x].approval.value.precondition.value, s.log[x].observed.value);
    }
  }

  lemma LogFacts(sha: Hash, b: Books, clock: Time)
    requires Inv(sha, b, clock)
    ensures LogOK(b)
  {
    hide RunsOK, ApprovalsOK, Unspent, LogOK;
  }

  // ---- A history with a call on a lapsed approval ------------------------------------------

  const ARGS: Args := map["service" := Text("redis")]
  const STATUS: ToolCall := ToolCall("service_status", ARGS, "diagnose_current_state", CallPending, None, "")
  const RESTART: ToolCall := ToolCall("restart_service", ARGS, "restart", CallPending, None, "")
  const SEEN: Dict := map["status" := Text("failed")]

  function Quiet(now: Time): Weather {
    Weather(now, false, Answers(SEEN))
  }

  lemma RedisScope(sha: Hash)
    requires forall p :: sha(p) != ""
    ensures Evaluate(sha, "service_status", ARGS, CompileScope(sha, "redis")) == AllowAuto
    ensures Evaluate(sha, "restart_service", ARGS, CompileScope(sha, "redis")) == RequireApproval
  {
    var s := CompileScope(sha, "redis");
    CompiledScopeIsSettled(sha, "redis");
    FirstIs(s.rules, 1);
    FirstIs(s.rules, 2);
  }

  /** The run after the status was read, and waiting, approved for the restart. */
  function Diagnosed(sha: Hash): Run {
    Run("run", Running, CompileScope(sha, "redis"), [STATUS.(status := CallSucceeded, result := Some(SEEN)), RESTART],
        1, 900,
        true, "", 3)
  }

  function Restarting(sha: Hash): Run {
    Moved(MarkCall(Moved(MarkCall(Diagnosed(sha), CallWaiting), WaitingApproval), CallApproved), Approved)
  }

  lemma StatusIsRead(sha: Hash, run: Run)
    requires run == Run("run", Running, CompileScope(sha, "redis"), [STATUS, RESTART], 0, 900, true, "", 3)
    requires Evaluate(sha, "service_status", ARGS, run.scope) == AllowAuto
    ensures Advanced(sha, run, Quiet(1)) == Diagnosed(sha)
    ensures forall bind, ttl, b, clock, id ::
              AdvancedBooks(sha, bind, ttl, b, clock, run, id, Quiet(1)) ==
              b.(runs := b.runs["run" := Diagnosed(sha)],
                 log := b.log + [CallFor(run, None, None, clock, Latest(clock, 1))])
  {
    hide Evaluate, Healthy, CompileScope;
  }

  lemma RestartIsRequested(sha: Hash)
    requires Evaluate(sha, "restart_service", ARGS, CompileScope(sha, "redis")) == RequireApproval
    ensures forall bind, ttl, b, clock, id ::
              AdvancedBooks(sha, bind, ttl, b, clock, Diagnosed(sha), id, Quiet(2)) ==
              b.(runs := b.runs["run" := Moved(MarkCall(Diagnosed(sha), CallWaiting), WaitingApproval)],
                 approvals := b.approvals[id := NewApproval(bind, ttl, Diagnosed(sha), id, Latest(clock, 2) + 1)])
  {
    hide Evaluate, Healthy, CompileScope, NewApproval;
  }

  lemma RestartResumes(sha: Hash, bind: Binding -> string, a: Approval)
    requires Evaluate(sha, "restart_service", ARGS, CompileScope(sha, "redis")) == RequireApproval
    requires a == NewApproval(bind, 300, Diagnosed(sha), "approval", 3)
    ensures a.status == Pending && a.expiresAt == 303 && a.runID == "run"
    ensures Resumes(sha, bind, Restarting(sha), a.(status := Granted), 302, Quiet(302))
  {
    hide Evaluate;
    assert Diagnosed(sha).plan[..1] == [STATUS.(status := CallSucceeded, result := Some(SEEN))];
  }

  /** The status of redis is read and a restart is requested, with an approval that lasts until second 303. */
  method RequestRestart(sha: Hash, bind: Binding -> string) returns (s: Service)
    requires forall p :: sha(p) != ""
    ensures fresh(s) && s.Valid() && s.sha == sha && s.bind == bind && s.clock <= 3
    ensures s.runs == map["run" := Moved(MarkCall(Diagnosed(sha), CallWaiting), WaitingApproval)]
    ensures s.approvals == map["approval" := NewApproval(bind, 300, Diagnosed(sha), "approval", 3)]
  {
    hide Inv, Evaluate, CompileScope, AdvancedBooks, NewApproval, Advanced;
    RedisScope(sha);
    s := new Service(sha, bind, 300);
    var run := s.CreateRun("run", "redis", [STATUS, RESTART], 900, false, 0);
    StatusIsRead(sha, Begun(run));
    var outcome := s.Step("run", "approval", Spell(1, 1, Quiet(1), n => Quiet(1)));
    RestartIsRequested(sha);
    outcome := s.Step("run", "approval", Spell(2, 2, Quiet(2), n => Quiet(2)));
  }

  /**
   The restart is granted, its approval is checked at second 302, the awaited query answers at second 303, and then the
   executor is called: the approval has lapsed in between.
   */
  method CallOnLapsedApproval(sha: Hash, bind: Binding -> string) returns (s: Service)
    requires forall p :: sha(p) != ""
    ensures fresh(s)
    ensures exists x :: 0 <= x < |s.log| && s.log[x].mode == Some(Required) && !UnexpiredAtCall(s.log[x]) &&
                        s.log[x].checkedAt < s.log[x].approval.value.expiresAt
  {
    hide Inv, Evaluate, CompileScope, NewApproval, Resumes, AdvancedBooks, Advanced;
    RedisScope(sha);
    DecisionMeans(sha, RESTART, CompileScope(sha, "redis"));
    s := RequestRestart(sha, bind);
    RestartResumes(sha, bind, NewApproval(bind, 300, Diagnosed(sha), "approval", 3));
    var outcome := s.Approve("approval", 4);
    assert s.runs["run"] == Restarting(sha) && s.clock == 4;
    assert IsLatest(s.approvals, "approval");
    ghost var before := s.log;
    outcome := s.Step("run", "another", Spell(302, 302, Quiet(302), n => Quiet(303)));
    assert s.log[|before|].calledAt == 303 && s.log[|before|].checkedAt == 302;
  }
}
