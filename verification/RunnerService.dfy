/**
 The stateful loop of the legacy runner. Whatever the infrastructure, the policy service and the clock
 answer, the books stay in order, and the loops stop at an approval gate or a terminal status in time.
 */
module RunnerService {
  import opened Octets
  import opened Capability
  import opened RunnerState

  datatype RunnerError = NotFound | Conflict | InvalidTransition
  datatype Outcome = Returned(run: Run) | Raised(error: RunnerError)

  /** The infrastructure answers with a dictionary or raises. */
  datatype Answer = Raises | Answers(fields: Dict)

  /** What the world says during one step: the clock, whether the policy service fails, and an answer. */
  datatype Weather = Weather(now: Time, policyFails: bool, answer: Answer)

  /** The clock before and after a run starts, what is seen while an approval is checked, and what follows. */
  datatype Spell = Spell(first: Time, second: Time, check: Weather, later: nat -> Weather)

  // ---- Decisions read off earlier results ----------------------------------------------

  function Lower(s: string): string {
    seq(|s|, k requires 0 <= k < |s| => if 'A' <= s[k] <= 'Z' then (s[k] as int + 32) as char else s[k])
  }

  const FAILURE_TERMS := ["failed", "error", "degraded", "restarting", "unavailable"]

  predicate TermAt(line: string, term: string, k: nat) {
    k + |term| <= |line| && line[k..k + |term|] == term
  }

  predicate Mentions(line: string, term: string) {
    exists k :: 0 <= k <= |line| && TermAt(line, term, k)
  }

  predicate Alarming(line: string) {
    exists t :: 0 <= t < |FAILURE_TERMS| && Mentions(Lower(line), FAILURE_TERMS[t])
  }

  /** A line alarms if, in whatever case its ASCII letters are, it has one of the five words somewhere in it. */
  lemma AlarmingIff(line: string)
    ensures Alarming(line) <==>
            exists term, before: string, after: string |
              term in {"failed", "error", "degraded", "restarting",
                       "unavailable"} :: Lower(line) == before + term + after
  {
    var low := Lower(line);
    if t, k :| 0 <= t < |FAILURE_TERMS| && 0 <= k <= |low| && TermAt(low, FAILURE_TERMS[t], k) {
      var term := FAILURE_TERMS[t];
      assert low == low[..k] + term + low[k + |term|..];
    }
    forall term, before: string, after: string |
      term in {"failed", "error", "degraded", "restarting", "unavailable"} && low == before + term + after
      ensures Alarming(line)
    {
      assert FAILURE_TERMS[0] == "failed" && FAILURE_TERMS[1] == "error" && FAILURE_TERMS[2] == "degraded";
      assert FAILURE_TERMS[3] == "restarting" && FAILURE_TERMS[4] == "unavailable";
      assert TermAt(low, term, |before|);
      assert Mentions(low, term);
    }
  }

  predicate ReportsStatus(call: ToolCall) {
    call.purpose == "diagnose_current_state" && call.result.Some? &&
    "status" in call.result.value && call.result.value["status"].Text?
  }

  predicate ReportsTrouble(call: ToolCall) {
    && call.purpose == "inspect_recent_evidence" && call.result.Some?
    && "lines" in call.result.value && call.result.value["lines"].List?
    && exists k :: 0 <= k < |call.result.value["lines"].items| && Alarming(call.result.value["lines"].items[k])
  }

  /** The service was last seen running and no evidence gathered so far is alarming. */
  ghost predicate Healthy(calls: seq<ToolCall>) {
    && (forall k :: 0 <= k < |calls| ==> !ReportsTrouble(calls[k]))
    && exists k :: 0 <= k < |calls| && ReportsStatus(calls[k]) &&
                   Lower(calls[k].result.value["status"].text) == "running" &&
                   forall m :: k < m < |calls| ==> !ReportsStatus(calls[m])
  }

  ghost predicate Skips(run: Run) {
    && run.currentStep < |run.plan|
    && run.plan[run.currentStep].action == "restart_service"
    && run.plan[run.currentStep].purpose == "remediate_if_needed"
    && Healthy(run.plan[..run.currentStep])
  }

  method ConditionalRemediationSkip(run: Run) returns (skip: bool)
    requires run.currentStep < |run.plan|
    ensures skip <==> Skips(run)
  {
    hide Alarming, Lower;
    var call := run.plan[run.currentStep];
    if call.action != "restart_service" || call.purpose != "remediate_if_needed" { return false; }
    var observed: Option<string> := None;
    var trouble := false;
    ghost var calls := run.plan[..run.currentStep];
    ghost var seen := 0;
    for n := 0 to run.currentStep
      invariant trouble <==> exists k :: 0 <= k < n && ReportsTrouble(calls[k])
      invariant observed.None? <==> forall m :: 0 <= m < n ==> !ReportsStatus(calls[m])
      invariant observed.Some? ==>
                  && 0 <= seen < n && ReportsStatus(calls[seen]) &&
                    (forall m :: seen < m < n ==> !ReportsStatus(calls[m]))
                  && observed.value == Lower(calls[seen].result.value["status"].text)
    {
      var prior := run.plan[n];
      assert calls[n] == prior;
      if prior.result.Some? {
        if prior.purpose == "diagnose_current_state" {
          if "status" in prior.result.value && prior.result.value["status"].Text? {
            observed := Some(Lower(prior.result.value["status"].text));
            seen := n;
          }
        }
        if prior.purpose == "inspect_recent_evidence" {
          if "lines" in prior.result.value && prior.result.value["lines"].List? {
            var lines := prior.result.value["lines"].items;
            if exists k :: 0 <= k < |lines| && Alarming(lines[k]) { trouble := true; }
          }
        }
      }
    }
    return observed == Some("running") && !trouble;
  }

  /** The newest service status a dictionary was recorded for. */
  function Precondition(calls: seq<ToolCall>): Option<Dict> {
    if calls == [] then None
    else
      var last := calls[|calls| - 1];
      if last.action == "service_status" && last.result.Some? then last.result else Precondition(calls[..|calls| - 1])
  }

  /** It is the result of the last status call that has one. */
  lemma {:induction false} PreconditionIsNewest(calls: seq<ToolCall>, k: nat)
    requires k < |calls| && calls[k].action == "service_status" && calls[k].result.Some?
    requires forall m :: k < m < |calls| ==> calls[m].action != "service_status" || calls[m].result.None?
    ensures Precondition(calls) == calls[k].result
  {
    if k < |calls| - 1 { PreconditionIsNewest(calls[..|calls| - 1], k); }
  }

  lemma {:induction false} NoPrecondition(calls: seq<ToolCall>)
    requires forall m :: 0 <= m < |calls| ==> calls[m].action != "service_status" || calls[m].result.None?
    ensures Precondition(calls).None?
  {
    if calls != [] { NoPrecondition(calls[..|calls| - 1]); }
  }

  const TRACKED := ["status", "pid", "generation"]

  /** Every tracked field of the approved state is observed unchanged. */
  predicate SameState(expected: Dict, observed: Dict) {
    forall k :: 0 <= k < |TRACKED| && TRACKED[k] in expected ==> Get(observed, TRACKED[k]) == expected[TRACKED[k]]
  }

  lemma SameStateIff(expected: Dict, observed: Dict)
    ensures SameState(expected, observed) <==> AsApproved(expected, observed)
  {
    assert TRACKED[0] == "status" && TRACKED[1] == "pid" && TRACKED[2] == "generation";
  }

  // ---- What one step makes of a run -------------------------------------------------------

  function MarkCall(run: Run, status: ActionStatus): Run {
    if run.currentStep < |run.plan|
    then run.(plan := run.plan[run.currentStep := run.plan[run.currentStep].(status := status)]) else run
  }

  function FailCall(run: Run, status: ActionStatus, reason: string): Run {
    if run.currentStep < |run.plan|
    then run.(lastError := reason,
              plan := run.plan[run.currentStep := run.plan[run.currentStep].(status := status, failure := reason)])
    else run.(lastError := reason)
  }

  function Moved(run: Run, target: RunStatus): Run {
    run.(status := target, version := run.version + 1)
  }

  /** The pending action is done: on to the next, or complete. */
  function Finished(run: Run, status: ActionStatus, result: Option<Dict>): Run
    requires run.currentStep < |run.plan|
  {
    var call := run.plan[run.currentStep].(status := status, result := result);
    var r := run.(plan := run.plan[run.currentStep := call], currentStep := run.currentStep + 1);
    if r.currentStep == |r.plan| then Moved(r, Completed) else r
  }

  function Executed(run: Run, answer: Answer): Run
    requires run.currentStep < |run.plan|
  {
    if Resource(run.plan[run.currentStep].args).None?
    then Moved(FailCall(run, CallFailed, "MALFORMED_TOOL_CALL"), Failed)
    else if run.plan[run.currentStep].action !in KNOWN_ACTIONS || answer.Raises?
    then Moved(FailCall(MarkCall(run, CallRunning), CallFailed, "error"), Failed)
    else Finished(MarkCall(run, CallRunning), CallSucceeded, Some(answer.fields))
  }

  function Decided(sha: Hash, call: ToolCall, scope: Scope, policyFails: bool): Decision {
    if policyFails then DenyInternalError else Evaluate(sha, call.action, call.args, scope)
  }

  const SKIPPED: Dict := map["executed" := Flag(false), "decision" := Text("NO_RESTART_NEEDED")]

  /** A running run after one ordinary step. */
  ghost function Advanced(sha: Hash, run: Run, w: Weather): Run {
    if run.currentStep >= |run.plan| then Moved(run, Completed)
    else if Skips(run) then Finished(run, CallSkipped, Some(SKIPPED))
    else
      match Decided(sha, run.plan[run.currentStep], run.scope, w.policyFails)
      case AllowAuto => Executed(run, w.answer)
      case RequireApproval => Moved(MarkCall(run, CallWaiting), WaitingApproval)
      case _ => Moved(FailCall(run, CallDenied, "denied"), Failed)
  }

  /** The step calls the executor without an approval. */
  ghost predicate CallsExecutor(sha: Hash, run: Run, w: Weather) {
    && run.currentStep < |run.plan| && !Skips(run)
    && Decided(sha, run.plan[run.currentStep], run.scope, w.policyFails) == AllowAuto
  }

  /** The later of the clock's last reading and a new one. */
  function Latest(clock: Time, read: Time): Time {
    if read > clock then read else clock
  }

  function NewApproval(bind: Binding -> string, ttl: int, run: Run, id: ID, created: Time): Approval
    requires run.currentStep < |run.plan|
  {
    var call := run.plan[run.currentStep];
    var expires := if created + ttl > run.expiresAt then run.expiresAt else created + ttl;
    var resource := if Resource(call.args).Some? then Resource(call.args).value else "";
    var draft := Approval(id, run.id, call.action, call.args, resource, run.scope.hash,
                          Precondition(run.plan[..run.currentStep]), Pending, created, expires, "");
    draft.(bindingHash := bind(BindingOf(draft)))
  }

  function CallFor(run: Run, approval: Option<Approval>, observed: Option<Dict>, checkedAt: Time, calledAt: Time)
    : Execution
    requires run.currentStep < |run.plan|
  {
    var call := run.plan[run.currentStep];
    Execution(run.id, run.currentStep, call.action, call.args, run.scope.hash, ModeFor(run.scope.rules, call.action),
              approval, observed, checkedAt, calledAt)
  }

  /** The books after one ordinary step: the run moved, and an executor call or a new approval if there is one. */
  ghost function AdvancedBooks(sha: Hash, bind: Binding -> string, ttl: int, b: Books, clock: Time, run: Run, id: ID,
                               w: Weather)
    : Books
  {
    var now := Latest(clock, w.now);
    var r := Advanced(sha, run, w);
    b.(runs := b.runs[run.id := r],
       log := if CallsExecutor(sha, run, w) then b.log + [CallFor(run, None, None, clock, now)] else b.log,
       approvals := if r.status == WaitingApproval && run.currentStep < |run.plan|
                    then b.approvals[id := NewApproval(bind, ttl, run, id, now + 1)] else b.approvals)
  }

  /** One step further, and complete exactly at the end of the plan. */
  predicate Progressed(run: Run, r: Run) {
    && r.id == run.id && r.scope == run.scope && |r.plan| == |run.plan| && r.currentStep == run.currentStep + 1
    && r.status == (if r.currentStep >= |r.plan| then Completed else Running)
  }

  /** Either blocked, or still running one step further. */
  predicate Onward(run: Run, r: Run) {
    r.id == run.id && (Blocked(r.status) || (Progressed(run, r) && r.status == Running))
  }

  lemma ExecutedGoesOnward(sha: Hash, run: Run, answer: Answer)
    requires RunOK(sha, run) && run.status == Running && run.currentStep < |run.plan|
    ensures RunOK(sha, Executed(run, answer)) && SameTerms(Executed(run, answer), run)
    ensures Progressed(run, Executed(run, answer)) ||
            (Executed(run, answer).id == run.id && Executed(run, answer).status == Failed)
  {
    hide Sealed, Below;
  }

  /** The measure of the loops: a step blocks the run or brings it one action nearer to the end of its plan. */
  lemma AdvancedGoesOnward(sha: Hash, run: Run, w: Weather)
    requires RunOK(sha, run) && run.status == Running
    ensures Onward(run, Advanced(sha, run, w)) && RunOK(sha, Advanced(sha, run, w)) &&
            SameTerms(Advanced(sha, run, w), run)
  {
    hide Sealed, Below, Evaluate, Skips, Executed;
    if run.currentStep < |run.plan| { ExecutedGoesOnward(sha, run, w.answer); }
  }

  lemma ScopeSettled(sha: Hash, r: Run)
    requires RunOK(sha, r)
    ensures Sealed(sha, r.scope) && Below(r.scope, r.scope)
  {
  }

  lemma RunFacts(sha: Hash, b: Books, clock: Time, i: ID)
    requires Inv(sha, b, clock) && i in b.runs
    ensures b.runs[i].id == i && RunOK(sha, b.runs[i])
  {
    hide RunOK, ApprovalsOK, Unspent, LogOK;
  }

  lemma DecisionMeans(sha: Hash, call: ToolCall, scope: Scope)
    ensures var d := Evaluate(sha, call.action, call.args, scope);
            && (d == AllowAuto ==> ModeFor(scope.rules, call.action) == Some(Auto))
            && (d == RequireApproval ==> ModeFor(scope.rules, call.action) == Some(Required))
            && (d == AllowAuto || d == RequireApproval ==>
                  && call.action in scope.actions
                  && Resource(call.args).Some? && Resource(call.args).value in scope.services)
            && d != DenyInternalError
  {
  }

  lemma AutoIsBacked(run: Run, checkedAt: Time, calledAt: Time)
    requires run.currentStep < |run.plan| && ModeFor(run.scope.rules, run.plan[run.currentStep].action) == Some(Auto)
    requires checkedAt <= calledAt
    ensures Backed(CallFor(run, None, None, checkedAt, calledAt))
  {
  }

  lemma LatestIsUnspent(sha: Hash, b: Books, clock: Time, a: ID)
    requires Inv(sha, b, clock) && IsLatest(b.approvals, a) && b.runs[b.approvals[a].runID].status == Approved
    requires b.approvals[a].status == Granted
    ensures Spent(b.approvals, a) && !Used(b.log, a)
  {
    hide RunsOK, LogOK, Used;
  }

  lemma ApprovedIsBacked(run: Run, a: Approval, observed: Dict, checkedAt: Time, calledAt: Time)
    requires run.currentStep < |run.plan| && checkedAt <= calledAt
    requires var call := run.plan[run.currentStep];
             && a.status == Granted && checkedAt < a.expiresAt && a.runID == run.id && a.action == call.action &&
               a.args == call.args
             && Resource(call.args) == Some(a.resource) && a.scopeHash == run.scope.hash
             && ModeFor(run.scope.rules, call.action) == Some(Required)
    requires a.precondition.Some? && AsApproved(a.precondition.value, observed)
    ensures Backed(CallFor(run, Some(a), Some(observed), checkedAt, calledAt))
  {
  }

  lemma CallIsInScope(runs: map<ID, Run>, run: Run, e: Execution)
    requires run.id in runs && SameTerms(runs[run.id], run) && run.currentStep < |run.plan|
    requires e.approval.Some? ==> run.authorized && e.checkedAt < run.expiresAt
    requires e == CallFor(run, e.approval, e.observed, e.checkedAt, e.calledAt)
    requires run.plan[run.currentStep].action in run.scope.actions
    requires Resource(run.plan[run.currentStep].args).Some?
    requires Resource(run.plan[run.currentStep].args).value in run.scope.services
    ensures InScope(runs, e)
  {
  }

  lemma ApprovalFacts(sha: Hash, b: Books, clock: Time, a: ID)
    requires Inv(sha, b, clock) && a in b.approvals
    ensures b.approvals[a].id == a && b.approvals[a].runID in b.runs
    ensures var i := b.approvals[a].runID;
            && b.runs[i].id == i && RunOK(sha, b.runs[i])
            && (b.approvals[a].status == Pending ==> b.runs[i].status == WaitingApproval)
  {
    hide RunOK, Unspent, LogOK, IsLatest;
  }

  lemma ApprovalsAreNamed(sha: Hash, b: Books, clock: Time)
    requires Inv(sha, b, clock)
    ensures forall a :: a in b.approvals ==> b.approvals[a].id == a
  {
    hide RunsOK, Unspent, LogOK, IsLatest;
  }

  lemma LatestIsOne(sha: Hash, b: Books, clock: Time, a: ID, c: ID)
    requires Inv(sha, b, clock) && IsLatest(b.approvals, a) && IsLatest(b.approvals, c)
    requires b.approvals[a].runID == b.approvals[c].runID
    ensures a == c
  {
    hide RunsOK, Unspent, LogOK;
    OnlyLatest(b.approvals, a, c);
  }

  // ---- The service ---------------------------------------------------------------------------

  class Service {
    const sha: Hash
    const bind: Binding -> string
    const approvalTTL: int
    var runs: map<ID, Run>
    var approvals: map<ID, Approval>
    var log: seq<Execution>
    var clock: Time

    function State(): Books
      reads this
    {
      Books(runs, approvals, log)
    }

    ghost predicate Valid()
      reads this
    {
      Inv(sha, State(), clock)
    }

    constructor (sha: Hash, bind: Binding -> string, approvalTTL: int)
      ensures Valid() && State() == Books(map[], map[], []) && clock == 0
      ensures this.sha == sha && this.bind == bind && this.approvalTTL == approvalTTL
    {
      this.sha := sha;
      this.bind := bind;
      this.approvalTTL := approvalTTL;
      runs := map[];
      approvals := map[];
      log := [];
      clock := 0;
    }

    /** Reads the clock, which never goes back. */
    method Now(read: Time) returns (t: Time)
      requires Valid()
      modifies this`clock
      ensures Valid() && clock == t == Latest(old(clock), read)
    {
      if read > clock {
        Later(sha, State(), clock, read);
        clock := read;
      }
      return clock;
    }

    /** Stores a run: a new one unchecked, a known one only with a sealed scope below its stored scope. */
    method SaveRun(run: Run) returns (ok: bool)
      modifies this`runs
      ensures ok <==> run.id in old(runs) ==> Sealed(sha, run.scope) && Below(run.scope, old(runs)[run.id].scope)
      ensures runs == if ok then old(runs)[run.id := run] else old(runs)
    {
      if run.id in runs {
        if run.scope.hash == "" || run.scope.hash != sha(CanonicalPayload(run.scope)) { return false; }
        var below := IsSubsetOf(run.scope, runs[run.id].scope);
        if !below { return false; }
      }
      runs := runs[run.id := run];
      return true;
    }

    method LatestApprovalForRun(runID: ID) returns (r: Option<Approval>)
      requires Valid()
      ensures r.Some? ==>
              && IsLatest(approvals, r.value.id) && approvals[r.value.id] == r.value && r.value.runID == runID
      ensures r.None? ==> forall a :: a in approvals ==> approvals[a].runID != runID
    {
      hide Inv;
      ApprovalsAreNamed(sha, State(), clock);
      r := None;
      var rest := approvals.Keys;
      while rest != {}
        invariant rest <= approvals.Keys
        invariant r.Some? ==> r.value.id in approvals && approvals[r.value.id] == r.value && r.value.runID == runID
        invariant forall a :: a in approvals && a !in rest && approvals[a].runID == runID ==>
                                r.Some? && approvals[a].createdAt <= r.value.createdAt
        decreases |rest|
      {
        var a :| a in rest;
        rest := rest - {a};
        if approvals[a].runID == runID && (r.None? || approvals[a].createdAt > r.value.createdAt) {
          r := Some(approvals[a]);
        }
      }
    }

    /** Stores a run that keeps its scope; it is neither approved by this nor taken out of a wait. */
    method Store(r: Run)
      requires Valid() && r.id in runs && RunOK(sha, r) && SameTerms(r, runs[r.id])
      requires r.status == runs[r.id].status || (r.status != Approved && runs[r.id].status != WaitingApproval)
      modifies this`runs
      ensures Valid() && runs == old(runs)[r.id := r]
    {
      hide Inv, RunOK;
      ghost var b := State();
      if r.status == runs[r.id].status { SameRunStored(sha, b, clock, r); } else { RunStored(sha, b, clock, r); }
      ScopeSettled(sha, r);
      var ok := SaveRun(r);
      assert State() == b.(runs := b.runs[r.id := r]);
    }

    /** Records why a run could not go on; from a running or approved run. */
    method FailResume(run: Run, reason: string) returns (r: Run)
      requires Valid() && run.id in runs && runs[run.id] == run && (run.status == Running || run.status == Approved)
      modifies this`runs
      ensures Valid() && runs == old(runs)[run.id := r]
      ensures r == Moved(FailCall(run, CallFailed, reason), if reason == "RUN_EXPIRED" then Expired else Failed)
    {
      hide Inv, Sealed, Below;
      RunFacts(sha, State(), clock, run.id);
      r := TransitionRun(FailCall(run, CallFailed, reason), if reason == "RUN_EXPIRED" then Expired else Failed).value;
      Store(r);
    }

    method FailStale(run: Run) returns (r: Run)
      requires Valid() && run.id in runs && runs[run.id] == run && run.status == Approved
      modifies this`runs
      ensures Valid() && runs == old(runs)[run.id := r]
      ensures r == Moved(FailCall(run, CallStale, "STALE_PRECONDITION"), Stale)
    {
      hide Inv, Sealed, Below;
      RunFacts(sha, State(), clock, run.id);
      r := TransitionRun(FailCall(run, CallStale, "STALE_PRECONDITION"), Stale).value;
      Store(r);
    }

    /** The step is done: the run goes on with the next one, or is complete. */
    method Finish(run: Run, status: ActionStatus, result: Option<Dict>) returns (r: Run)
      requires Valid() && run.id in runs && run.status == runs[run.id].status == Running && SameTerms(run, runs[run.id])
      requires RunOK(sha, run) && run.currentStep < |run.plan|
      modifies this`runs
      ensures Valid() && runs == old(runs)[run.id := r] && r == Finished(run, status, result)
    {
      hide Inv, Sealed, Below;
      var call := run.plan[run.currentStep].(status := status, result := result);
      r := run.(plan := run.plan[run.currentStep := call], currentStep := run.currentStep + 1);
      if r.currentStep == |r.plan| { r := TransitionRun(r, Completed).value; }
      Store(r);
    }

    /** Calls the executor for the pending action, on an approval or automatically, and reads the clock as it does. */
    method Execute(run: Run, approval: Option<Approval>, observed: Option<Dict>, checkedAt: Time, w: Weather)
      returns (r: Run)
      requires Valid() && run.id in runs && runs[run.id] == run && run.status == Running && run.currentStep < |run.plan|
      requires Backed(CallFor(run, approval, observed, checkedAt, Latest(clock, w.now)))
      requires Resource(run.plan[run.currentStep].args).Some? ==>
                 && run.plan[run.currentStep].action in run.scope.actions
                 && Resource(run.plan[run.currentStep].args).value in run.scope.services
      requires approval.Some? ==>
                 var a := approval.value.id;
                 && Spent(approvals, a) && !Used(log, a) && approvals[a].runID == run.id
                 && run.authorized && checkedAt < run.expiresAt
      modifies this`runs, this`log, this`clock
      ensures Valid() && runs == old(runs)[run.id := r] && r == Executed(run, w.answer) &&
              clock == Latest(old(clock), w.now)
      ensures log == old(log) + if Resource(run.plan[run.currentStep].args).Some?
                                then [CallFor(run, approval, observed, checkedAt, Latest(old(clock), w.now))] else []
    {
      hide Inv, Sealed, Below, Backed, Used, InScope;
      RunFacts(sha, State(), clock, run.id);
      ExecutedGoesOnward(sha, run, w.answer);
      var called := Now(w.now);
      var call := run.plan[run.currentStep];
      if Resource(call.args).None? {
        r := FailResume(run, "MALFORMED_TOOL_CALL");
        assert |"MALFORMED_TOOL_CALL"| != |"RUN_EXPIRED"|;
        return;
      }
      r := MarkCall(run, CallRunning);
      Store(r);
      CallIsInScope(runs, run, CallFor(run, approval, observed, checkedAt, called));
      CallExecuted(sha, State(), clock, CallFor(run, approval, observed, checkedAt, called));
      ghost var b := State();
      log := log + [CallFor(run, approval, observed, checkedAt, called)];
      assert State() == b.(log := log);
      if call.action !in KNOWN_ACTIONS || w.answer.Raises? {
        r := TransitionRun(FailCall(r, CallFailed, "error"), Failed).value;
        Store(r);
        return;
      }
      r := Finish(r, CallSucceeded, Some(w.answer.fields));
    }

    method Deny(run: Run) returns (r: Run)
      requires Valid() && run.id in runs && runs[run.id] == run && run.status == Running
      modifies this`runs
      ensures Valid() && runs == old(runs)[run.id := r] && r == Moved(FailCall(run, CallDenied, "denied"), Failed)
    {
      hide Inv, Sealed, Below;
      RunFacts(sha, State(), clock, run.id);
      r := TransitionRun(FailCall(run, CallDenied, "denied"), Failed).value;
      Store(r);
    }

    /** Puts the pending action on hold under a new approval, bound to it and not outliving the run. */
    method Request(run: Run, approvalID: ID, read: Time) returns (r: Run)
      requires Valid() && run.id in runs && runs[run.id] == run && run.status == Running && run.currentStep < |run.plan|
      requires Resource(run.plan[run.currentStep].args).Some? && approvalID !in approvals
      modifies this`runs, this`approvals, this`clock
      ensures Valid() && runs == old(runs)[run.id := r] && r == Moved(MarkCall(run, CallWaiting), WaitingApproval)
      ensures var created := Latest(old(clock), read) + 1;
              && clock == created
              && approvals == old(approvals)[approvalID := NewApproval(bind, approvalTTL, run, approvalID, created)]
      ensures var a, call := approvals[approvalID], run.plan[run.currentStep];
              && a.status == Pending && a.runID == run.id && a.action == call.action && a.args == call.args
              && Some(a.resource) == Resource(call.args) && a.scopeHash == run.scope.hash &&
                a.expiresAt <= run.expiresAt
              && a.precondition == Precondition(run.plan[..run.currentStep]) && a.bindingHash == bind(BindingOf(a))
    {
      hide Inv, Sealed, Below;
      RunFacts(sha, State(), clock, run.id);
      var now := Now(read);
      ghost var b := State();
      // Approvals are told apart by their creation times, which the original takes to be strictly increasing.
      var created := now + 1;
      var approval := NewApproval(bind, approvalTTL, run, approvalID, created);
      r := TransitionRun(MarkCall(run, CallWaiting), WaitingApproval).value;
      ApprovalRequested(sha, b, clock, r, approval);
      ScopeSettled(sha, r);
      approvals := approvals[approvalID := approval];
      var ok := SaveRun(r);
      clock := created;
      assert State() == b.(runs := b.runs[r.id := r], approvals := b.approvals[approval.id := approval]);
    }

    /** One ordinary step of a running run. */
    method Advance(run: Run, approvalID: ID, w: Weather) returns (outcome: Outcome)
      requires Valid() && run.id in runs && runs[run.id] == run && (run.status == Running || run.status == Created)
      requires approvalID !in approvals
      modifies this`runs, this`approvals, this`log, this`clock
      ensures Valid() && old(clock) <= clock
      ensures run.status == Created ==> outcome == Raised(InvalidTransition) && State() == old(State())
      ensures run.status == Running ==>
                && outcome == Returned(Advanced(sha, run, w))
                && State() == AdvancedBooks(sha, bind, approvalTTL, old(State()), old(clock), run, approvalID, w)
                && clock <= Latest(old(clock), w.now) + 1
    {
      hide Inv, Sealed, Below, Backed, Skips, Evaluate, Finished, Executed, NewApproval;
      RunFacts(sha, State(), clock, run.id);
      if run.currentStep >= |run.plan| {
        var done := TransitionRun(run, Completed);
        if done.None? { return Raised(InvalidTransition); }
        Store(done.value);
        return Returned(done.value);
      }
      var call := run.plan[run.currentStep];
      ExecutedGoesOnward(sha, run, w.answer);
      var skip := ConditionalRemediationSkip(run);
      var r: Run;
      if skip {
        FinishedIsNotWaiting(run);
        r := Finish(run, CallSkipped, Some(SKIPPED));
        return Returned(r);
      }
      var decision := Decided(sha, call, run.scope, w.policyFails);
      DecisionMeans(sha, call, run.scope);
      if decision != AllowAuto && decision != RequireApproval {
        r := Deny(run);
        return Returned(r);
      }
      if decision == RequireApproval {
        r := Request(run, approvalID, w.now);
        return Returned(r);
      }
      AutoIsBacked(run, clock, Latest(clock, w.now));
      r := Execute(run, None, None, clock, w);
      return Returned(r);
    }

    /** Why the approval does not cover the pending action any more, or nothing. */
    method RevalidateApproval(run: Run, call: ToolCall, approval: Option<Approval>, now: Time, policyFails: bool)
      returns (failure: Option<string>)
      ensures failure.None? <==> Revalidated(sha, bind, run, call, approval, now, policyFails)
      ensures approval.None? || approval.value.bindingHash != bind(BindingOf(approval.value)) ==> failure.Some?
    {
      if now >= run.expiresAt { return Some("RUN_EXPIRED"); }
      if approval.None? { return Some("MISSING_APPROVAL"); }
      var a := approval.value;
      if a.status != Granted { return Some("APPROVAL_NOT_GRANTED"); }
      if now >= a.expiresAt { return Some("APPROVAL_EXPIRED"); }
      if a.runID != run.id { return Some("APPROVAL_RUN_MISMATCH"); }
      if a.action != call.action || a.args != call.args { return Some("APPROVAL_ACTION_ARGUMENT_MISMATCH"); }
      if Resource(call.args) != Some(a.resource) { return Some("APPROVAL_RESOURCE_MISMATCH"); }
      if a.scopeHash != run.scope.hash { return Some("APPROVAL_SCOPE_MISMATCH"); }
      if a.bindingHash != bind(BindingOf(a)) { return Some("APPROVAL_BINDING_INVALID"); }
      if !run.authorized { return Some("USER_AUTHORIZATION_REVOKED"); }
      if Resource(call.args).value !in run.scope.services { return Some("RESOURCE_OUT_OF_SCOPE"); }
      if Decided(sha, call, run.scope, policyFails) != RequireApproval { return Some("POLICY_REVALIDATION_FAILED"); }
      return None;
    }

    /**
     Executes the approved action if its approval still holds, then goes on until the run blocks. The executor is called
     on the newest approval exactly if the check and the awaited query allow it, at whatever time that query returns.
     */
    method ResumeAfterApproval(run: Run, approvalID: ID, check: Weather, later: nat -> Weather)
      returns (outcome: Outcome)
      requires Valid() && run.id in runs && runs[run.id] == run && run.status == Approved && approvalID !in approvals
      modifies this`runs, this`approvals, this`log, this`clock
      ensures Valid() && old(clock) <= clock
      ensures outcome.Returned? && runs == old(runs)[run.id := outcome.run] && outcome.run.id == run.id
      ensures Blocked(outcome.run.status) && old(log) <= log
      ensures var checkedAt := Latest(old(clock), check.now);
              var calledAt := Latest(checkedAt, later(0).now);
              forall a :: IsLatest(old(approvals), a) && old(approvals)[a].runID == run.id ==>
                if Resumes(sha, bind, run, old(approvals)[a], checkedAt, check)
                then && |log| > |old(log)|
                     && log[|old(log)|] == CallFor(run, Some(old(approvals)[a]), Some(check.answer.fields), checkedAt,
                                                   calledAt)
                else log == old(log)
      ensures var checkedAt := Latest(old(clock), check.now);
              forall a :: IsLatest(old(approvals), a) && old(approvals)[a].runID == run.id &&
                          Compares(sha, bind, run, old(approvals)[a], checkedAt, check) &&
                          Differs(old(approvals)[a].precondition.value, check.answer.fields) ==>
                && log == old(log) && outcome.run.status == Stale && outcome.run.lastError == "STALE_PRECONDITION"
                && run.currentStep < |outcome.run.plan|
                && outcome.run.plan[run.currentStep].status == CallStale
                && outcome.run.plan[run.currentStep].failure == "STALE_PRECONDITION"
      ensures var checkedAt := Latest(old(clock), check.now);
              var calledAt := Latest(checkedAt, later(0).now);
              forall a :: IsLatest(old(approvals), a) && old(approvals)[a].runID == run.id &&
                          Compares(sha, bind, run, old(approvals)[a], checkedAt, check) &&
                          !Differs(old(approvals)[a].precondition.value, check.answer.fields) ==>
                && |log| > |old(log)|
                && log[|old(log)|] == CallFor(run, Some(old(approvals)[a]), Some(check.answer.fields), checkedAt,
                                              calledAt)
    {
      hide Inv, Sealed, Below, Evaluate, IsLatest, Revalidated, SameState, CallFor, Differs;
      RunFacts(sha, State(), clock, run.id);
      ghost var b, was := State(), clock;
      var checked := Now(check.now);
      if run.currentStep >= |run.plan| {
        var r := FailResume(run, "MISSING_PENDING_ACTION");
        return Returned(r);
      }
      hide Resumes, Compares;
      var approval := LatestApprovalForRun(run.id);
      forall a | IsLatest(approvals, a) && approval.Some? && a in approvals && approvals[a].runID == run.id
        ensures a == approval.value.id
      {
        LatestIsOne(sha, b, was, a, approval.value.id);
      }
      forall a ensures IsLatest(approvals, a) ==> a in approvals { LatestExists(approvals, a); }
      if approval.None? {
        var failure := RevalidateApproval(run, run.plan[run.currentStep], approval, checked, check.policyFails);
        var r := FailResume(run, failure.value);
        return Returned(r);
      }
      outcome := ResumeWith(run, approval.value, approvalID, checked, check, later);
    }

    /** Resumes on the newest approval of the run. */
    method ResumeWith(run: Run, a: Approval, approvalID: ID, checked: Time, check: Weather, later: nat -> Weather)
      returns (outcome: Outcome)
      requires Valid() && run.id in runs && runs[run.id] == run && run.status == Approved && approvalID !in approvals
      requires run.currentStep < |run.plan| && IsLatest(approvals, a.id) && approvals[a.id] == a && checked == clock
      modifies this`runs, this`approvals, this`log, this`clock
      ensures Valid() && old(clock) <= clock
      ensures outcome.Returned? && runs == old(runs)[run.id := outcome.run] && outcome.run.id == run.id
      ensures Blocked(outcome.run.status) && old(log) <= log
      ensures Resumes(sha, bind, run, a, checked, check) <==>
              Compares(sha, bind, run, a, checked, check) && !Differs(a.precondition.value, check.answer.fields)
      ensures if Resumes(sha, bind, run, a, checked, check)
              then && |log| > |old(log)|
                   && log[|old(log)|] ==
                      CallFor(run, Some(a), Some(check.answer.fields), checked, Latest(checked, later(0).now))
              else log == old(log)
      ensures Compares(sha, bind, run, a, checked, check) && Differs(a.precondition.value, check.answer.fields) ==>
                && outcome.run.status == Stale && outcome.run.lastError == "STALE_PRECONDITION"
                && run.currentStep < |outcome.run.plan|
                && outcome.run.plan[run.currentStep].status == CallStale
                && outcome.run.plan[run.currentStep].failure == "STALE_PRECONDITION"
    {
      hide Inv, Sealed, Below, Evaluate, IsLatest, SameState, Revalidated, CallFor, Differs, AsApproved;
      RunFacts(sha, State(), clock, run.id);
      var failure := RevalidateApproval(run, run.plan[run.currentStep], Some(a), checked, check.policyFails);
      var r: Run;
      if failure.Some? {
        r := FailResume(run, failure.value);
        return Returned(r);
      }
      if a.precondition.None? {
        r := FailResume(run, "MISSING_PRECONDITION");
        return Returned(r);
      }
      if check.answer.Raises? {
        r := FailResume(run, "PRECONDITION_REVALIDATION_FAILED");
        return Returned(r);
      }
      SameStateIff(a.precondition.value, check.answer.fields);
      DiffersIff(a.precondition.value, check.answer.fields);
      if !SameState(a.precondition.value, check.answer.fields) {
        r := FailStale(run);
        return Returned(r);
      }
      outcome := ExecuteApproved(run, a, check.answer.fields, approvalID, checked, check.policyFails, later);
    }

    /** The approved action and what follows it. */
    method ExecuteApproved(run: Run, a: Approval, observed: Dict, approvalID: ID, checked: Time, policyFails: bool,
                           later: nat -> Weather)
      returns (outcome: Outcome)
      requires Valid() && run.id in runs && runs[run.id] == run && run.status == Approved && approvalID !in approvals
      requires run.currentStep < |run.plan| && IsLatest(approvals, a.id) && approvals[a.id] == a && checked == clock
      requires Revalidated(sha, bind, run, run.plan[run.currentStep], Some(a), checked, policyFails)
      requires a.precondition.Some? && AsApproved(a.precondition.value, observed)
      modifies this`runs, this`approvals, this`log, this`clock
      ensures Valid() && old(clock) <= clock
      ensures outcome.Returned? && runs == old(runs)[run.id := outcome.run] && outcome.run.id == run.id
      ensures Blocked(outcome.run.status) && old(log) <= log
      ensures |log| > |old(log)|
      ensures log[|old(log)|] == CallFor(run, Some(a), Some(observed), checked, Latest(checked, later(0).now))
    {
      hide Inv, Sealed, Below, Backed, Evaluate, Used, IsLatest, Executed, AsApproved;
      RunFacts(sha, State(), clock, run.id);
      LatestIsUnspent(sha, State(), clock, a.id);
      DecisionMeans(sha, run.plan[run.currentStep], run.scope);
      var r := TransitionRun(MarkCall(run, CallApproved), Running).value;
      ApprovedIsBacked(r, a, observed, checked, Latest(checked, later(0).now));
      Store(r);
      ExecutedGoesOnward(sha, r, later(0).answer);
      ghost var e := CallFor(r, Some(a), Some(observed), checked, Latest(checked, later(0).now));
      r := Execute(r, Some(a), Some(observed), checked, later(0));
      assert log == old(log) + [e];
      assert e == CallFor(run, Some(a), Some(observed), checked, Latest(checked, later(0).now));
      outcome := Continue(r, approvalID, later);
      assert log[|old(log)|] == e;
    }

    /** Ordinary steps after an approved action; the bound on their number is never reached. */
    method Continue(run: Run, approvalID: ID, later: nat -> Weather) returns (outcome: Outcome)
      requires Valid() && run.id in runs && runs[run.id] == run && approvalID !in approvals
      requires Terminal(run.status) || (run.status == Running && run.currentStep < |run.plan|)
      modifies this`runs, this`approvals, this`log, this`clock
      ensures Valid() && old(clock) <= clock
      ensures outcome.Returned? && runs == old(runs)[run.id := outcome.run] && outcome.run.id == run.id
      ensures Blocked(outcome.run.status) && old(log) <= log
    {
      hide Inv, RunOK, Advanced, CallsExecutor, CallFor, NewApproval;
      var r := run;
      var n := 0;
      while n < |run.plan| + 1
        invariant 0 <= n <= |run.plan| && Valid() && r.id == run.id && r.id in runs && runs == old(runs)[run.id := r]
        invariant Blocked(r.status) ||
                  (r.status == Running && r.currentStep < |r.plan| == |run.plan| && approvalID !in approvals)
        invariant (Blocked(r.status) || n <= r.currentStep) && old(log) <= log && old(clock) <= clock
        decreases |run.plan| + 1 - n
      {
        if Blocked(r.status) { return Returned(r); }
        RunFacts(sha, State(), clock, r.id);
        AdvancedGoesOnward(sha, r, later(n + 1));
        var next := Advance(r, approvalID, later(n + 1));
        r := next.run;
        n := n + 1;
      }
      return Raised(Conflict);
    }

    method FailExpired(run: Run) returns (outcome: Outcome)
      requires Valid() && run.id in runs && runs[run.id] == run && run.status in {Created, Planned, Running}
      modifies this`runs
      ensures Valid()
      ensures if run.status == Created then outcome == Raised(InvalidTransition) && runs == old(runs)
              else outcome.Returned? && runs == old(runs)[run.id := outcome.run] &&
                   outcome.run == Moved(run.(lastError := "RUN_EXPIRED"), Expired)
    {
      hide Inv, Sealed, Below;
      RunFacts(sha, State(), clock, run.id);
      var expired := TransitionRun(run.(lastError := "RUN_EXPIRED"), Expired);
      if expired.None? { return Raised(InvalidTransition); }
      Store(expired.value);
      return Returned(expired.value);
    }

    /** One request to move a run on. It raises exactly for unknown, blocked and unplanned runs. */
    method Step(runID: ID, approvalID: ID, w: Spell) returns (outcome: Outcome)
      requires Valid() && approvalID !in approvals
      modifies this`runs, this`approvals, this`log, this`clock
      ensures Valid() && old(clock) <= clock
      ensures outcome == Raised(NotFound) <==> runID !in old(runs)
      ensures outcome == Raised(Conflict) <==> runID in old(runs) && Blocked(old(runs)[runID].status)
      ensures outcome == Raised(InvalidTransition) <==> runID in old(runs) && old(runs)[runID].status == Created
      ensures outcome.Raised? ==> State() == old(State())
      ensures outcome.Returned? ==>
                && outcome.run.id == runID && runs == old(runs)[runID := outcome.run]
                && (|| Blocked(outcome.run.status)
                    || (Onward(old(runs)[runID], outcome.run) && approvals == old(approvals)))
      ensures runID in old(runs) && StartsAt(old(runs)[runID], old(clock), w) < old(runs)[runID].expiresAt &&
              old(runs)[runID].status in {Planned, Running} ==>
                && State() == AdvancedBooks(sha, bind, approvalTTL, old(State()),
                                            StartsAt(old(runs)[runID], old(clock), w),
                                            Begun(old(runs)[runID]), approvalID, w.later(0))
                && clock <= Latest(StartsAt(old(runs)[runID], old(clock), w), w.later(0).now) + 1
      ensures runID in old(runs) && old(runs)[runID].status == Approved ==>
                var checkedAt := Latest(old(clock), w.check.now);
                var calledAt := Latest(checkedAt, w.later(0).now);
                forall a :: IsLatest(old(approvals), a) && old(approvals)[a].runID == runID &&
                            Resumes(sha, bind, old(runs)[runID], old(approvals)[a], checkedAt, w.check) ==>
                  && |log| > |old(log)|
                  && log[|old(log)|] == CallFor(old(runs)[runID], Some(old(approvals)[a]), Some(w.check.answer.fields),
                                                checkedAt, calledAt)
    {
      hide Inv, Sealed, Below, Advanced, AdvancedBooks, Resumes, IsLatest, CallFor;
      if runID !in runs { return Raised(NotFound); }
      RunFacts(sha, State(), clock, runID);
      var run := runs[runID];
      if Terminal(run.status) { return Raised(Conflict); }
      if run.status == WaitingApproval { return Raised(Conflict); }
      if run.status == Planned {
        var now := Now(w.first);
        if now >= run.expiresAt {
          outcome := FailExpired(run);
          return;
        }
        run := TransitionRun(run, Running).value;
        Store(run);
      }
      if run.status == Approved {
        outcome := ResumeAfterApproval(run, approvalID, w.check, w.later);
        return;
      }
      var now := Now(w.second);
      if now >= run.expiresAt {
        outcome := FailExpired(run);
        return;
      }
      ghost var b := State();
      if run.status == Running {
        RunFacts(sha, State(), clock, runID);
        AdvancedGoesOnward(sha, run, w.later(0));
      }
      outcome := Advance(run, approvalID, w.later(0));
      if run.status == Running {
        SameAdvance(sha, bind, approvalTTL, old(State()), b, now, run, approvalID, w.later(0));
        NothingRequested(sha, bind, approvalTTL, b, now, run, approvalID, w.later(0));
      }
    }

    /**
     Steps until the run blocks. For a planned run with a plan this succeeds within one step per action; only a run
     with an empty plan reaches the end of the loop.
     */
    method RunUntilBlocked(runID: ID, approvalID: ID, spells: nat -> Spell) returns (outcome: Outcome)
      requires Valid() && approvalID !in approvals
      modifies this`runs, this`approvals, this`log, this`clock
      ensures Valid()
      ensures outcome == Raised(NotFound) <==> runID !in old(runs)
      ensures outcome == Raised(InvalidTransition) <==> runID in old(runs) && old(runs)[runID].status == Created
      ensures outcome == Raised(Conflict) <==>
              && runID in old(runs) && old(runs)[runID].status != Created
              && !Blocked(old(runs)[runID].status) && old(runs)[runID].plan == []
      ensures outcome.Returned? ==>
                outcome.run.id == runID && Blocked(outcome.run.status) && runs == old(runs)[runID := outcome.run]
    {
      hide Inv, Sealed, Below, AdvancedBooks, Resumes, IsLatest, CallFor;
      if runID !in runs { return Raised(NotFound); }
      RunFacts(sha, State(), clock, runID);
      var run := runs[runID];
      ghost var start := run;
      var max := |run.plan| + 1;
      var n := 0;
      while n < max
        invariant 0 <= n <= max && Valid() && run.id == runID && runID in runs && runs == old(runs)[runID := run]
        invariant n == 0 ==> run == start
        invariant n > 0 ==> start.status != Created && !Blocked(start.status)
        invariant Blocked(run.status) ==> n <= |start.plan| || start.plan == []
        invariant !Blocked(run.status) ==>
                    && approvalID !in approvals && |run.plan| == max - 1
                    && (run.status == Created ==> n == 0) && (start.plan == [] ==> n == 0)
                    && n <= run.currentStep &&
                      (start.plan != [] && start.status != Created ==> run.currentStep < |run.plan|)
      {
        if Blocked(run.status) { return Returned(run); }
        var stepped := Step(runID, approvalID, spells(n));
        if stepped.Raised? {
          assert stepped.error.NotFound? || stepped.error.Conflict? || stepped.error.InvalidTransition?;
          return stepped;
        }
        run := stepped.run;
        n := n + 1;
      }
      return Raised(Conflict);
    }

    /** Grants a pending approval of a waiting run, unless it has lapsed. */
    method Approve(approvalID: ID, read: Time) returns (outcome: Outcome)
      requires Valid()
      modifies this`runs, this`approvals, this`clock
      ensures Valid()
      ensures outcome == Raised(NotFound) <==> approvalID !in old(approvals)
      ensures outcome == Raised(Conflict) <==>
              approvalID in old(approvals) && old(approvals)[approvalID].status != Pending
      ensures outcome.Returned? <==> approvalID in old(approvals) && old(approvals)[approvalID].status == Pending
      ensures outcome.Raised? ==> State() == old(State()) && clock == old(clock)
      ensures outcome.Returned? ==>
                var a := old(approvals)[approvalID];
                && clock == Latest(old(clock), read)
                && runs == old(runs)[a.runID := outcome.run]
                && approvals ==
                   old(approvals)[approvalID := a.(status := if clock < a.expiresAt then Granted else Lapsed)]
                && a.runID in old(runs)
                && outcome.run == if clock < a.expiresAt
                                  then Moved(MarkCall(old(runs)[a.runID], CallApproved), Approved)
                                  else Moved(old(runs)[a.runID].(lastError := "APPROVAL_EXPIRED"), Failed)
    {
      hide Inv, Sealed, Below;
      if approvalID !in approvals { return Raised(NotFound); }
      ApprovalFacts(sha, State(), clock, approvalID);
      var approval := approvals[approvalID];
      var run := runs[approval.runID];
      if approval.status != Pending { return Raised(Conflict); }
      // A pending approval's run is always waiting, so the run's own check cannot fail here.
      assert run.status == WaitingApproval;
      var now := Now(read);
      var r: Run;
      if now >= approval.expiresAt {
        r := TransitionRun(run.(lastError := "APPROVAL_EXPIRED"), Failed).value;
        Settle(approval.(status := Lapsed), r);
        return Returned(r);
      }
      r := TransitionRun(MarkCall(run, CallApproved), Approved).value;
      Settle(approval.(status := Granted), r);
      return Returned(r);
    }

    method Reject(approvalID: ID) returns (outcome: Outcome)
      requires Valid()
      modifies this`runs, this`approvals
      ensures Valid()
      ensures outcome == Raised(NotFound) <==> approvalID !in old(approvals)
      ensures outcome == Raised(Conflict) <==>
              approvalID in old(approvals) && old(approvals)[approvalID].status != Pending
      ensures outcome.Returned? <==> approvalID in old(approvals) && old(approvals)[approvalID].status == Pending
      ensures outcome.Raised? ==> State() == old(State())
      ensures outcome.Returned? ==>
                var a := old(approvals)[approvalID];
                && runs == old(runs)[a.runID := outcome.run] &&
                  approvals == old(approvals)[approvalID := a.(status := Refused)]
                && outcome.run.status == Rejected
    {
      hide Inv, Sealed, Below;
      if approvalID !in approvals { return Raised(NotFound); }
      ApprovalFacts(sha, State(), clock, approvalID);
      var approval := approvals[approvalID];
      var run := runs[approval.runID];
      if approval.status != Pending { return Raised(Conflict); }
      assert run.status == WaitingApproval;
      var r := TransitionRun(FailCall(run, CallDenied, "APPROVAL_REJECTED").(lastError := run.lastError),
                             Rejected).value;
      Settle(approval.(status := Refused), r);
      return Returned(r);
    }

    /** Stores a decision and the run it moves. */
    method Settle(a: Approval, r: Run)
      requires Valid() && a.id in approvals && approvals[a.id].status == Pending && Decides(approvals[a.id], a, r)
      requires r.id in runs && RunOK(sha, r) && SameTerms(r, runs[r.id])
      modifies this`runs, this`approvals
      ensures Valid() && runs == old(runs)[r.id := r] && approvals == old(approvals)[a.id := a]
    {
      hide Inv, RunOK;
      ghost var b := State();
      ApprovalDecided(sha, b, clock, a.id, a, r);
      ScopeSettled(sha, r);
      approvals := approvals[a.id := a];
      var ok := SaveRun(r);
      assert State() == b.(runs := b.runs[r.id := r], approvals := b.approvals[a.id := a]);
    }

    /** Creates a run and plans it; it may stop in between, which leaves an unplanned run behind. */
    method CreateRun(runID: ID, service: string, plan: seq<ToolCall>, ttl: int, stops: bool, read: Time)
      returns (r: Run)
      requires Valid() && runID !in runs && forall p :: sha(p) != ""
      modifies this`runs, this`clock
      ensures Valid() && clock == Latest(old(clock), read) && runs == old(runs)[runID := r]
      ensures var created := Run(runID, Created, CompileScope(sha, service), [], 0, clock + ttl, true, "", 1);
              r == if stops then created else Moved(created.(plan := plan), Planned)
    {
      hide Inv, Sealed, Below, CompileScope;
      CompiledScopeIsSettled(sha, service);
      var now := Now(read);
      r := Run(runID, Created, CompileScope(sha, service), [], 0, now + ttl, true, "", 1);
      ghost var b := State();
      RunStored(sha, b, clock, r);
      var ok := SaveRun(r);
      assert State() == b.(runs := b.runs[runID := r]);
      if stops { return; }
      r := TransitionRun(r.(plan := plan), Planned).value;
      Store(r);
    }
  }

  /** The approval still covers the pending action at this time, and the policy still asks for one. */
  predicate Revalidated(sha: Hash, bind: Binding -> string, run: Run, call: ToolCall, approval: Option<Approval>,
                        now: Time,
                        policyFails: bool)
  {
    && now < run.expiresAt && approval.Some?
    && var a := approval.value;
    && a.status == Granted && now < a.expiresAt && a.runID == run.id && a.action == call.action && a.args == call.args
    && Resource(call.args) == Some(a.resource) && a.scopeHash == run.scope.hash && a.bindingHash == bind(BindingOf(a))
    && run.authorized && a.resource in run.scope.services
    && Decided(sha, call, run.scope, policyFails) == RequireApproval
  }

  /** Resuming an approved run gets as far as the executor. */
  predicate Resumes(sha: Hash, bind: Binding -> string, run: Run, a: Approval, checkedAt: Time, check: Weather) {
    && run.currentStep < |run.plan|
    && Revalidated(sha, bind, run, run.plan[run.currentStep], Some(a), checkedAt, check.policyFails)
    && a.precondition.Some? && check.answer.Answers? && SameState(a.precondition.value, check.answer.fields)
  }

  /** The approval revalidates, and there is a precondition and an answer to compare it with. */
  predicate Compares(sha: Hash, bind: Binding -> string, run: Run, a: Approval, checkedAt: Time, check: Weather) {
    && run.currentStep < |run.plan|
    && Revalidated(sha, bind, run, run.plan[run.currentStep], Some(a), checkedAt, check.policyFails)
    && a.precondition.Some? && check.answer.Answers?
  }

  /** Status, pid or generation was approved with a value that is now another one, or gone and was not null. */
  ghost predicate Differs(expected: Dict, observed: Dict) {
    exists key | key in {"status", "pid", "generation"} ::
      key in expected && if key in observed then observed[key] != expected[key] else expected[key] != Null
  }

  lemma DiffersIff(expected: Dict, observed: Dict)
    ensures Differs(expected, observed) <==> !AsApproved(expected, observed)
  {
    if !Unchanged(expected, observed, "status") { assert "status" in {"status", "pid", "generation"}; }
    if !Unchanged(expected, observed, "pid") { assert "pid" in {"status", "pid", "generation"}; }
    if !Unchanged(expected, observed, "generation") { assert "generation" in {"status", "pid", "generation"}; }
  }

  function Begun(run: Run): Run {
    if run.status == Planned then Moved(run, Running) else run
  }

  /** When a step gets to its action. */
  function StartsAt(run: Run, clock: Time, w: Spell): Time {
    Latest(if run.status == Planned then Latest(clock, w.first) else clock, w.second)
  }

  lemma FinishedIsNotWaiting(run: Run)
    requires run.currentStep < |run.plan| && run.status == Running
    ensures Finished(run, CallSkipped, Some(SKIPPED)).status != WaitingApproval
  {
  }

  /** Storing the run as begun before the step makes no difference after it. */
  lemma SameAdvance(sha: Hash, bind: Binding -> string, ttl: int, b: Books, begun: Books, clock: Time, run: Run,
                    id: ID, w: Weather)
    requires begun == b.(runs := b.runs[run.id := run]) || begun == b
    ensures AdvancedBooks(sha, bind, ttl, begun, clock, run, id, w) ==
            AdvancedBooks(sha, bind, ttl, b, clock, run, id, w)
  {
    hide Advanced, CallsExecutor, CallFor, NewApproval;
    assert b.runs[run.id := run][run.id := Advanced(sha, run, w)] == b.runs[run.id := Advanced(sha, run, w)];
  }

  lemma NothingRequested(sha: Hash, bind: Binding -> string, ttl: int, b: Books, clock: Time, run: Run, id: ID,
                         w: Weather)
    ensures Advanced(sha, run, w).status != WaitingApproval ==>
              AdvancedBooks(sha, bind, ttl, b, clock, run, id, w).approvals == b.approvals
    ensures AdvancedBooks(sha, bind, ttl, b, clock, run, id, w).runs == b.runs[run.id := Advanced(sha, run, w)]
  {
    hide Advanced, CallsExecutor, CallFor, NewApproval;
  }
}
