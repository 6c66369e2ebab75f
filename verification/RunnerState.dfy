/**
 Runs, approvals and executor calls of the legacy runner, and the rules that tie them together:
 a required approval is bound to one pending action and backs one executor call.
 */
module RunnerState {
  import opened Octets
  import opened Capability

  type ID = string
  type Time = int
  type Dict = map<string, Value>

  datatype RunStatus =
    | Created | Planned | Running | WaitingApproval | Approved | Rejected | Completed | Failed
    | Stale | Expired | Cancelled

  datatype ActionStatus =
    | CallPending | CallWaiting | CallApproved | CallSkipped | CallDenied
    | CallRunning | CallSucceeded | CallFailed | CallStale

  datatype ApprovalStatus = Pending | Granted | Refused | Lapsed

  datatype ToolCall = ToolCall(
    action: string, args: Args, purpose: string, status: ActionStatus, result: Option<Dict>, failure: string)

  datatype Run = Run(
    id: ID, status: RunStatus, scope: Scope, plan: seq<ToolCall>, currentStep: nat, expiresAt: Time,
    authorized: bool, lastError: string, version: int)

  datatype Approval = Approval(
    id: ID, runID: ID, action: string, args: Args, resource: string, scopeHash: string, precondition: Option<Dict>,
    status: ApprovalStatus, createdAt: Time, expiresAt: Time, bindingHash: string)

  datatype Binding = Binding(
    runID: ID, action: string, args: Args, resource: string, scopeHash: string, precondition: Option<Dict>,
    expiresAt: Time)

  function BindingOf(a: Approval): Binding {
    Binding(a.runID, a.action, a.args, a.resource, a.scopeHash, a.precondition, a.expiresAt)
  }

  /**
   One call of the executor, with the mode its action had and the approval it was made on. The approval was checked
   before the call: an awaited query of the service lies between the two, and `observed` is what it answered.
   */
  datatype Execution = Execution(
    runID: ID, step: nat, action: string, args: Args, scopeHash: string, mode: Option<Mode>, approval: Option<Approval>,
    observed: Option<Dict>, checkedAt: Time, calledAt: Time)

  /** A dictionary read with `get`: an absent key reads as null. */
  function Get(d: Dict, key: string): Value {
    if key in d then d[key] else Null
  }

  /** A field the approved state had reads the same in the observed one. */
  predicate Unchanged(expected: Dict, observed: Dict, key: string) {
    key in expected ==> Get(observed, key) == expected[key]
  }

  /** Status, process and generation of the service are as they were when approval was asked for. */
  ghost predicate AsApproved(expected: Dict, observed: Dict) {
    Unchanged(expected, observed, "status") && Unchanged(expected, observed, "pid") &&
    Unchanged(expected, observed, "generation")
  }

  // ---- Run transitions -------------------------------------------------------------

  function AllowedTransitions(status: RunStatus): set<RunStatus> {
    match status
    case Created => {Planned, Failed, Cancelled}
    case Planned => {Running, Failed, Expired, Cancelled}
    case Running => {WaitingApproval, Completed, Failed, Expired, Cancelled}
    case WaitingApproval => {Approved, Rejected, Failed, Expired, Cancelled}
    case Approved => {Running, Failed, Stale, Expired, Cancelled}
    case _ => {}
  }

  function TransitionRun(run: Run, target: RunStatus): Option<Run> {
    if target in AllowedTransitions(run.status) then Some(run.(status := target, version := run.version + 1)) else None
  }

  predicate Terminal(status: RunStatus) {
    status in {Rejected, Completed, Failed, Stale, Expired, Cancelled}
  }

  /** Nothing more happens to the run without a human or at all. */
  predicate Blocked(status: RunStatus) {
    status == WaitingApproval || Terminal(status)
  }

  /** Terminal statuses are exactly those without a way out. */
  lemma TerminalHasNoWayOut(status: RunStatus)
    ensures Terminal(status) <==> AllowedTransitions(status) == {}
  {
  }

  // ---- The books ---------------------------------------------------------------------

  datatype Books = Books(runs: map<ID, Run>, approvals: map<ID, Approval>, log: seq<Execution>)

  ghost predicate RunOK(sha: Hash, run: Run) {
    && run.currentStep <= |run.plan|
    && Sealed(sha, run.scope) && Below(run.scope, run.scope)
    && (run.status == Created ==> run.plan == [])
    && (run.status in {Planned, Running, WaitingApproval, Approved} && run.plan != [] ==> run.currentStep < |run.plan|)
  }

  /** The newest approval of its run. */
  ghost predicate IsLatest(approvals: map<ID, Approval>, a: ID) {
    && a in approvals
    && forall b :: b in approvals && approvals[b].runID == approvals[a].runID ==>
      approvals[b].createdAt <= approvals[a].createdAt
  }

  ghost predicate Used(log: seq<Execution>, a: ID) {
    exists x :: 0 <= x < |log| && log[x].approval.Some? && log[x].approval.value.id == a
  }

  /**
   An executor call whose action requires approval has one that is granted, bound to it, and was unexpired when
   checked, and the service was observed as it was when approval was asked for.
   */
  ghost predicate Backed(e: Execution) {
    && e.mode.Some? && e.checkedAt <= e.calledAt
    && (e.mode.value == Required ==>
          && e.approval.Some?
          && var a := e.approval.value;
          && a.status == Granted && e.checkedAt < a.expiresAt && a.runID == e.runID && a.action == e.action &&
            a.args == e.args
          && Resource(e.args) == Some(a.resource) && a.scopeHash == e.scopeHash
          && a.precondition.Some? && e.observed.Some? && AsApproved(a.precondition.value, e.observed.value))
  }

  /** A run keeps the terms it was created with. */
  predicate SameTerms(r: Run, was: Run) {
    r.scope == was.scope && r.expiresAt == was.expiresAt && r.authorized == was.authorized
  }

  /**
   The call stays inside its run's scope, whose hash and mode it was made under; one on an approval was checked while
   the run was authorized and had not expired.
   */
  ghost predicate InScope(runs: map<ID, Run>, e: Execution) {
    && e.runID in runs
    && var s := runs[e.runID].scope;
    && e.scopeHash == s.hash && e.mode == ModeFor(s.rules, e.action) && e.action in s.actions
    && Resource(e.args).Some? && Resource(e.args).value in s.services
    && (e.approval.Some? ==> runs[e.runID].authorized && e.checkedAt < runs[e.runID].expiresAt)
  }

  ghost predicate RunsOK(sha: Hash, runs: map<ID, Run>) {
    forall i :: i in runs ==> runs[i].id == i && RunOK(sha, runs[i])
  }

  ghost predicate ApprovalsOK(b: Books, clock: Time) {
    && (forall a :: a in b.approvals ==>
                      b.approvals[a].id == a && b.approvals[a].runID in b.runs && b.approvals[a].createdAt <= clock)
    && (forall a, c :: a in b.approvals && c in b.approvals && a != c ==>
        b.approvals[a].createdAt != b.approvals[c].createdAt)
    && (forall a :: a in b.approvals && b.approvals[a].status == Pending ==>
                      b.runs[b.approvals[a].runID].status == WaitingApproval && IsLatest(b.approvals, a))
  }

  /** An approved run's newest approval has not backed an executor call yet. */
  ghost predicate Unspent(b: Books) {
    forall a | IsLatest(b.approvals, a) && b.approvals[a].runID in b.runs &&
      b.runs[b.approvals[a].runID].status == Approved ::
      !Used(b.log, a)
  }

  ghost predicate LogOK(b: Books) {
    && (forall x :: 0 <= x < |b.log| ==> Backed(b.log[x]) && InScope(b.runs, b.log[x]))
    && (forall x :: 0 <= x < |b.log| && b.log[x].approval.Some? ==> Spent(b.approvals, b.log[x].approval.value.id))
    && (forall x, y :: 0 <= x < y < |b.log| && b.log[x].approval.Some? && b.log[y].approval.Some? ==>
                         b.log[x].approval.value.id != b.log[y].approval.value.id)
  }

  predicate Spent(approvals: map<ID, Approval>, a: ID) {
    a in approvals && approvals[a].status == Granted
  }

  ghost predicate Inv(sha: Hash, b: Books, clock: Time) {
    RunsOK(sha, b.runs) && ApprovalsOK(b, clock) && Unspent(b) && LogOK(b)
  }

  // ---- What keeps the books ----------------------------------------------------------

  /** Time passes. */
  lemma Later(sha: Hash, b: Books, clock: Time, clock': Time)
    requires Inv(sha, b, clock) && clock <= clock'
    ensures Inv(sha, b, clock')
  {
  }

  /** A run changes, or is created, without entering or leaving approval. */
  lemma RunStored(sha: Hash, b: Books, clock: Time, r: Run)
    requires Inv(sha, b, clock) && RunOK(sha, r) && r.status != Approved
    requires r.id in b.runs && b.runs[r.id].status == WaitingApproval ==> r.status == WaitingApproval
    requires r.id in b.runs ==> SameTerms(r, b.runs[r.id])
    ensures Inv(sha, b.(runs := b.runs[r.id := r]), clock)
  {
    hide RunOK, Backed, Used, IsLatest;
  }

  lemma SameRunStored(sha: Hash, b: Books, clock: Time, r: Run)
    requires Inv(sha, b, clock) && RunOK(sha, r) && r.id in b.runs && r.status == b.runs[r.id].status
    requires SameTerms(r, b.runs[r.id])
    ensures Inv(sha, b.(runs := b.runs[r.id := r]), clock)
  {
    hide RunOK, Backed, Used, IsLatest;
  }

  lemma NewestIsLatest(approvals: map<ID, Approval>, a: Approval)
    requires forall c :: c in approvals ==> approvals[c].createdAt <= a.createdAt
    ensures IsLatest(approvals[a.id := a], a.id)
  {
  }

  lemma OthersStayLatest(approvals: map<ID, Approval>, a: Approval, c: ID)
    requires c in approvals && approvals[c].runID != a.runID && (a.id in approvals ==> approvals[a.id].runID == a.runID)
    ensures IsLatest(approvals[a.id := a], c) <==> IsLatest(approvals, c)
  {
    var next := approvals[a.id := a];
    assert forall d :: d in next && d != a.id ==> d in approvals && next[d] == approvals[d];
    assert forall d :: d in approvals ==> d in next;
  }

  lemma RequestedApprovals(b: Books, b': Books, clock: Time, r: Run, a: Approval)
    requires ApprovalsOK(b, clock) && r.id in b.runs && r.status == WaitingApproval &&
             b.runs[r.id].status != WaitingApproval
    requires a.id !in b.approvals && a.runID == r.id && a.status == Pending && a.createdAt > clock
    requires b'.runs == b.runs[r.id := r] && b'.approvals == b.approvals[a.id := a]
    ensures ApprovalsOK(b', a.createdAt)
  {
    hide IsLatest;
    NewestIsLatest(b.approvals, a);
    forall c | c in b'.approvals && b'.approvals[c].status == Pending
      ensures b'.runs[b'.approvals[c].runID].status == WaitingApproval && IsLatest(b'.approvals, c)
    {
      if c != a.id { OthersStayLatest(b.approvals, a, c); }
    }
  }

  lemma RequestedUnspent(b: Books, b': Books, clock: Time, r: Run, a: Approval)
    requires ApprovalsOK(b, clock) && Unspent(b) && r.status == WaitingApproval && a.id !in b.approvals &&
             a.runID == r.id
    requires b'.runs == b.runs[r.id := r] && b'.approvals == b.approvals[a.id := a] && b'.log == b.log
    ensures Unspent(b')
  {
    hide IsLatest, Used;
    forall c | c in b'.approvals && b'.approvals[c].runID != r.id
      ensures IsLatest(b'.approvals, c) ==> IsLatest(b.approvals, c)
    {
      OthersStayLatest(b.approvals, a, c);
    }
    forall c ensures IsLatest(b'.approvals, c) ==> c in b'.approvals { LatestExists(b'.approvals, c); }
  }

  lemma LatestExists(approvals: map<ID, Approval>, a: ID)
    ensures IsLatest(approvals, a) ==> a in approvals
  {
  }

  /** A run starts to wait on a new approval. */
  lemma ApprovalRequested(sha: Hash, b: Books, clock: Time, r: Run, a: Approval)
    requires Inv(sha, b, clock) && RunOK(sha, r) && r.id in b.runs && r.status == WaitingApproval
    requires b.runs[r.id].status != WaitingApproval && SameTerms(r, b.runs[r.id])
    requires a.id !in b.approvals && a.runID == r.id && a.status == Pending && a.createdAt > clock
    ensures Inv(sha, b.(runs := b.runs[r.id := r], approvals := b.approvals[a.id := a]), a.createdAt)
  {
    hide RunOK, Backed, Unspent, ApprovalsOK;
    var b' := b.(runs := b.runs[r.id := r], approvals := b.approvals[a.id := a]);
    RequestedApprovals(b, b', clock, r, a);
    RequestedUnspent(b, b', clock, r, a);
  }

  /** A pending approval is decided, and its run goes where the decision sends it. */
  predicate Decides(a: Approval, next: Approval, r: Run) {
    && next == a.(status := next.status) && next.status != Pending
    && r.id == a.runID && r.status != WaitingApproval && (r.status == Approved ==> next.status == Granted)
  }

  lemma DecidedLatest(approvals: map<ID, Approval>, a: ID, next: Approval, c: ID)
    requires a in approvals && next == approvals[a].(status := next.status) && next.id == a
    ensures IsLatest(approvals[a := next], c) <==> IsLatest(approvals, c)
  {
    var decided := approvals[a := next];
    assert forall d :: d in decided <==> d in approvals;
    assert forall d :: d in approvals ==>
           decided[d].runID == approvals[d].runID && decided[d].createdAt == approvals[d].createdAt;
  }

  lemma DecidedApprovals(b: Books, b': Books, clock: Time, a: ID, next: Approval, r: Run)
    requires ApprovalsOK(b, clock) && a in b.approvals && b.approvals[a].status == Pending &&
             Decides(b.approvals[a], next, r)
    requires b'.runs == b.runs[r.id := r] && b'.approvals == b.approvals[a := next]
    ensures ApprovalsOK(b', clock)
  {
    hide IsLatest;
    forall c | c in b'.approvals && b'.approvals[c].status == Pending
      ensures b'.runs[b'.approvals[c].runID].status == WaitingApproval && IsLatest(b'.approvals, c)
    {
      DecidedLatest(b.approvals, a, next, c);
      if b.approvals[c].runID == b.approvals[a].runID { OnlyLatest(b.approvals, a, c); }
    }
  }

  lemma OnlyLatest(approvals: map<ID, Approval>, a: ID, c: ID)
    requires IsLatest(approvals, a) && IsLatest(approvals, c) && approvals[a].runID == approvals[c].runID
    ensures approvals[a].createdAt == approvals[c].createdAt
  {
  }

  lemma DecidedUnspent(b: Books, b': Books, clock: Time, a: ID, next: Approval, r: Run)
    requires ApprovalsOK(b, clock) && LogOK(b) && Unspent(b)
    requires a in b.approvals && b.approvals[a].status == Pending && Decides(b.approvals[a], next, r)
    requires b'.runs == b.runs[r.id := r] && b'.approvals == b.approvals[a := next] && b'.log == b.log
    ensures Unspent(b')
  {
    hide IsLatest, Backed;
    PendingIsUnused(b, a);
    hide Used;
    forall c
      ensures IsLatest(b'.approvals, c) ==> c in b.approvals && IsLatest(b.approvals, c)
      ensures IsLatest(b'.approvals, c) && c in b.approvals && b.approvals[c].runID == r.id ==> c == a
    {
      LatestExists(b'.approvals, c);
      DecidedLatest(b.approvals, a, next, c);
      if IsLatest(b'.approvals, c) && b.approvals[c].runID == r.id { OnlyLatest(b.approvals, a, c); }
    }
  }

  lemma PendingIsUnused(b: Books, a: ID)
    requires LogOK(b) && a in b.approvals && b.approvals[a].status == Pending
    ensures !Used(b.log, a)
  {
    hide Backed;
  }

  lemma DecidedLog(b: Books, b': Books, a: ID, next: Approval)
    requires LogOK(b) && a in b.approvals && b.approvals[a].status == Pending
    requires b'.approvals == b.approvals[a := next] && b'.log == b.log
    requires forall i :: i in b.runs ==> i in b'.runs && SameTerms(b'.runs[i], b.runs[i])
    ensures LogOK(b')
  {
    hide Backed;
  }

  lemma ApprovalDecided(sha: Hash, b: Books, clock: Time, a: ID, next: Approval, r: Run)
    requires Inv(sha, b, clock) && RunOK(sha, r) && r.id in b.runs && SameTerms(r, b.runs[r.id])
    requires a in b.approvals && b.approvals[a].status == Pending && Decides(b.approvals[a], next, r)
    ensures Inv(sha, b.(runs := b.runs[r.id := r], approvals := b.approvals[a := next]), clock)
  {
    hide RunOK, Backed, Unspent, ApprovalsOK, LogOK, Decides;
    var b' := b.(runs := b.runs[r.id := r], approvals := b.approvals[a := next]);
    DecidedApprovals(b, b', clock, a, next, r);
    DecidedUnspent(b, b', clock, a, next, r);
    DecidedLog(b, b', a, next);
  }

  /** The executor is called: automatically, or on a granted approval no call was made on before. */
  lemma CallExecuted(sha: Hash, b: Books, clock: Time, e: Execution)
    requires Inv(sha, b, clock) && Backed(e) && InScope(b.runs, e) && b.runs[e.runID].status != Approved
    requires e.approval.Some? ==>
               var a := e.approval.value.id;
               Spent(b.approvals, a) && !Used(b.log, a) && b.approvals[a].runID == e.runID
    ensures Inv(sha, b.(log := b.log + [e]), clock)
  {
    hide RunOK, Backed, IsLatest;
    var b' := b.(log := b.log + [e]);
    forall a
      ensures Used(b'.log, a) ==> Used(b.log, a) || (e.approval.Some? && a == e.approval.value.id)
    {
      OneMoreUse(b.log, e, a);
    }
  }

  lemma OneMoreUse(log: seq<Execution>, e: Execution, a: ID)
    ensures Used(log + [e], a) <==> Used(log, a) || (e.approval.Some? && a == e.approval.value.id)
  {
    var next := log + [e];
    assert next[|log|] == e && forall x :: 0 <= x < |log| ==> next[x] == log[x];
  }

  // ---- When an approval lapses between its check and the call ----------------------------

  predicate UnexpiredAtCall(e: Execution) {
    e.approval.Some? ==> e.calledAt < e.approval.value.expiresAt
  }

  /**
   An approval that was good when it was checked is good for every call made within the timeout of the awaited query
   if and only if more than the timeout is left of it.
   */
  lemma UnexpiredThroughoutIff(e: Execution, timeout: nat)
    requires e.approval.Some?
    ensures (forall called: Time | e.checkedAt <= called <= e.checkedAt + timeout ::
               UnexpiredAtCall(e.(calledAt := called)))
            <==> timeout < e.approval.value.expiresAt - e.checkedAt
  {
    if e.approval.value.expiresAt - e.checkedAt <= timeout {
      assert !UnexpiredAtCall(e.(calledAt := e.checkedAt + timeout));
    }
  }
}
