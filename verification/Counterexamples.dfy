/** A reachable journal in which a terminal status is left again, for any claimable intent. */
module Counterexamples {
  import opened Domain
  import opened Journal

  lemma ApplyOneMore(j: Journal, calls: seq<Call>, call: Call)
    ensures ApplyAll(j, calls + [call]) == Apply(ApplyAll(j, calls), call)
  {
    var all := calls + [call];
    assert all[..|all| - 1] == calls;
  }

  /** An intent whose digest is right, whose deadlines are ahead, and which starts with the claim. */
  predicate Claimable(digests: Digests, i: ChangeIntent) {
    DigestMatches(digests, i) && 0 < i.approvalDeadline && 0 < i.startBefore && |i.steps| > 0 && i.steps[0] == S00Claim
  }

  lemma IntentIsApproved(digests: Digests, i: ChangeIntent, k: ID) returns (calls: seq<Call>)
    requires Claimable(digests, i)
    ensures var j := ApplyAll(Empty(digests), calls);
            && j.digests == digests && k in j.operations && j.steps == map[]
            && var op := j.operations[k].payload;
            && op.operationID == k && op.status == Queued && !op.released && op.attempts == []
            && op.intentID == i.intentID && op.intentDigest == i.intentDigest
            && i.intentID in j.intents && j.intents[i.intentID].payload.intent == i
            && j.intents[i.intentID].status == j.intents[i.intentID].payload.status == IntentConsumed
  {
    hide ApplyAll;
    var e := Empty(digests);
    Nothing(e);
    calls := [];
    var insert := Insert(IntentRecord(i, IntentAwaitingApproval, "", 0));
    ApplyOneMore(e, calls, insert);
    calls := calls + [insert];
    assert ApplyAll(e, calls) == e.(intents := map[i.intentID := RowOfIntent(insert.record)]);
    var approve := Approve(i.intentID, i.intentDigest, "owner", 0, 0, "approval", k);
    ApplyOneMore(e, calls, approve);
    calls := calls + [approve];
  }

  lemma ClaimIsDispatched(digests: Digests, i: ChangeIntent, k: ID, step: ID) returns (calls: seq<Call>)
    requires Claimable(digests, i)
    ensures var j := ApplyAll(Empty(digests), calls);
            && k in j.operations
            && var op := j.operations[k].payload;
            && op.operationID == k && op.status == Queued && !op.released
            && |op.attempts| == 1 && op.attempts[0].stepID == step && op.attempts[0].dispatch == DispatchPossible
  {
    hide ApplyAll, Claimable;
    var e := Empty(digests);
    calls := IntentIsApproved(digests, i, k);
    ClaimComesFirst(digests, i);
    var prepare := Prepare(k, S00Claim, 0, step);
    ApplyOneMore(e, calls, prepare);
    calls := calls + [prepare];
    assert ApplyAll(e, calls).operations[k].payload.attempts[0].Untouched();
    var mark := MarkPossible(k, step, 0);
    ApplyOneMore(e, calls, mark);
    calls := calls + [mark];
  }

  lemma ClaimComesFirst(digests: Digests, i: ChangeIntent)
    requires Claimable(digests, i)
    ensures DigestMatches(digests, i) && |i.steps| > 0 && i.steps[0] == S00Claim
  {
  }

  lemma Nothing(j: Journal)
    ensures ApplyAll(j, []) == j
  {
  }

  lemma Moved(j: Journal, calls: seq<Call>, k: ID, to: OperationStatus) returns (more: seq<Call>)
    requires var j' := ApplyAll(j, calls);
             k in j'.operations && j'.operations[k].payload.operationID == k && to != Succeeded &&
             CanTransition(j'.operations[k].payload.status, to)
    ensures var was, now := ApplyAll(j, calls), ApplyAll(j, more);
            k in now.operations && now.operations[k].payload.status == to &&
            now.operations[k].payload.attempts == was.operations[k].payload.attempts &&
            now.operations[k].payload.operationID == k
  {
    hide ApplyAll;
    var call := Transition(k, to, NotStarted, false, 0);
    ApplyOneMore(j, calls, call);
    more := calls + [call];
  }

  ghost predicate LeavesTerminal(j: Journal, call: Call, k: ID) {
    && k in j.operations && IsTerminal(j.operations[k].payload.status)
    && k in Apply(j, call).operations && !IsTerminal(Apply(j, call).operations[k].payload.status)
  }

  /** FAILED is terminal and releases ownership, yet an observation of its last step makes it UNKNOWN. */
  lemma TerminalStatusIsNotAbsorbing(digests: Digests, i: ChangeIntent, k: ID, step: ID)
    requires Claimable(digests, i)
    ensures exists calls: seq<Call>, call: Call :: LeavesTerminal(ApplyAll(Empty(digests), calls), call, k)
  {
    hide ApplyAll, Claimable;
    var calls := ClaimIsDispatched(digests, i, k, step);
    calls := Moved(Empty(digests), calls, k, Preparing);
    calls := Moved(Empty(digests), calls, k, Executing);
    calls := Moved(Empty(digests), calls, k, Failed);
    var call := Record(k, step, EffectUnknown, Unattributed, [], 0);
    var j := ApplyAll(Empty(digests), calls);
    assert FindStep(j.operations[k].payload.attempts, step) == 0;
    assert LeavesTerminal(j, call, k);
  }
}
