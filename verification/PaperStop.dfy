/**
 The Paper target's side of a graceful stop: one process remembers the stop request Docker
 acknowledged, observes the container, and attributes a stop to exactly that request.
 */
module PaperStop {
  import opened Domain
  import opened Octets
  import DockerLog
  import Workflow

  datatype Lifecycle = Lifecycle(
    containerID: ID, status: string, observedAt: Time, finishedAt: Time,
    running: bool, exitCode: int, oomKilled: bool)

  datatype Snapshot = Snapshot(ready: bool, bootID: ID, observedAt: Time, digest: string)

  /** What the host and the runtime answer in one poll, and when it is judged. */
  datatype Poll = Poll(
    lifecycle: Option<Lifecycle>, snapshot: Option<Snapshot>, logs: Option<seq<byte>>,
    parse: seq<byte> -> Option<Time>, now: Time)

  /** The last snapshot of the stopped server: of the requested boot, between the request and the exit. */
  predicate Terminal(request: StopRequest, p: Poll)
    requires p.lifecycle.Some?
  {
    && p.snapshot.Some? && !p.snapshot.value.ready && p.snapshot.value.bootID == request.bootID
    && request.requestedAt <= p.snapshot.value.observedAt <= p.lifecycle.value.finishedAt
  }

  ghost predicate Logged(request: StopRequest, p: Poll) {
    p.logs.Some? && DockerLog.ShowsGracefulStop(p.logs.value, request.requestedAt, p.parse)
  }

  /** The evidence one observation yields for a request, given the request this process had acknowledged. */
  ghost function Observed(acknowledged: Option<StopRequest>, request: StopRequest, p: Poll): StopEvidence
    requires p.lifecycle.Some?
  {
    var l := p.lifecycle.value;
    var base := StopEvidence(
      StopNotRequested, request.operationID, request.stepID, l.containerID, request.bootID, request.requestedAt,
      l.observedAt, l.finishedAt, true, l.running, l.exitCode, l.oomKilled, false, false, Unattributed,
      ["docker-lifecycle:" + l.status]);
    if l.running then base.(state := StopStopping)
    else
      var seen := if Terminal(request, p)
                  then base.(runtimeTerminal := true,
                             references := base.references + ["paper-terminal:sha256:" + p.snapshot.value.digest])
                  else base;
      var logged := if Logged(request, p) && Terminal(request, p)
                    then seen.(graceful := true, references := seen.references + DockerLog.REFERENCES) else seen;
      if acknowledged == Some(request) && l.finishedAt >= request.requestedAt
      then logged.(attribution := Correlated) else logged
  }

  /** How a stop ends: accepted, refused with its evidence, out of time, or never acknowledged. */
  datatype Outcome = Accepted(stop: StopEvidence) | Refused(stop: StopEvidence) | TimedOut | NotAcknowledged

  ghost predicate Decides(acknowledged: Option<StopRequest>, request: StopRequest, p: Poll) {
    p.lifecycle.Some? &&
    JudgeStop(request, Observed(acknowledged, request, p), p.now).state in {StopConfirmed, StopFailed, StopUnknown}
  }

  class Target {
    const containerID: ID
    var acknowledged: Option<StopRequest>
    /** Every request Docker acknowledged to this process, in order. */
    ghost var history: seq<StopRequest>

    ghost predicate Valid()
      reads this
    {
      && acknowledged == (if history == [] then None else Some(history[|history| - 1]))
      && forall k :: 0 <= k < |history| ==> history[k].containerID == containerID && Complete(history[k])
    }

    static predicate Complete(request: StopRequest) {
      request.operationID != "" && request.stepID != "" && request.bootID != ""
    }

    constructor (containerID: ID)
      ensures Valid() && history == [] && this.containerID == containerID
    {
      this.containerID := containerID;
      acknowledged := None;
      history := [];
    }

    /** Remembers the request only after Docker has acknowledged the stop. */
    method DispatchGracefulStop(request: StopRequest, stopped: bool) returns (ok: bool)
      requires Valid()
      modifies this
      ensures Valid()
      ensures ok <==> request.containerID == containerID && Complete(request) && stopped
      ensures history == old(history) + (if ok then [request] else [])
    {
      if request.containerID != containerID || request.operationID == "" || request.stepID == "" ||
        request.bootID == "" {
        return false;
      }
      if !stopped { return false; }
      acknowledged := Some(request);
      history := history + [request];
      return true;
    }

    method ObserveStop(request: StopRequest, p: Poll) returns (r: Option<StopEvidence>)
      ensures r == if p.lifecycle.None? then None else Some(Observed(acknowledged, request, p))
    {
      if p.lifecycle.None? { return None; }
      var l := p.lifecycle.value;
      var evidence := StopEvidence(
        StopNotRequested, request.operationID, request.stepID, l.containerID, request.bootID, request.requestedAt,
        l.observedAt, l.finishedAt, true, l.running, l.exitCode, l.oomKilled, false, false, Unattributed,
        ["docker-lifecycle:" + l.status]);
      if l.running {
        return Some(evidence.(state := StopStopping));
      }
      if p.snapshot.Some? && !p.snapshot.value.ready && p.snapshot.value.bootID == request.bootID &&
         request.requestedAt <= p.snapshot.value.observedAt <= l.finishedAt
      {
        evidence := evidence.(runtimeTerminal := true,
                              references := evidence.references + ["paper-terminal:sha256:" + p.snapshot.value.digest]);
      }
      if p.logs.Some? {
        var references := DockerLog.GracefulStopReferences(p.logs.value, request.requestedAt, p.parse);
        if references.Some? && evidence.runtimeTerminal {
          evidence := evidence.(graceful := true, references := evidence.references + references.value);
        }
      }
      if acknowledged == Some(request) && l.finishedAt >= request.requestedAt {
        evidence := evidence.(attribution := Correlated);
      }
      return Some(evidence);
    }

    /** Polls until an observation decides or the deadline passes after the last poll. */
    method WaitStopped(request: StopRequest, polls: seq<Poll>) returns (outcome: Outcome)
      ensures outcome.TimedOut? ==> forall k :: 0 <= k < |polls| ==> !Decides(acknowledged, request, polls[k])
      ensures !outcome.NotAcknowledged?
      ensures !outcome.TimedOut? ==>
                exists n :: 0 <= n < |polls| && Decides(acknowledged, request, polls[n]) &&
                            (forall k :: 0 <= k < n ==> !Decides(acknowledged, request, polls[k])) &&
                            outcome.stop == JudgeStop(request, Observed(acknowledged, request, polls[n]),
                                                      polls[n].now) &&
                            (outcome.Accepted? <==> outcome.stop.state == StopConfirmed)
    {
      hide Observed;
      var n := 0;
      while n < |polls|
        invariant 0 <= n <= |polls|
        invariant forall k :: 0 <= k < n ==> !Decides(acknowledged, request, polls[k])
      {
        var observed := ObserveStop(request, polls[n]);
        if observed.Some? {
          var e := observed.value;
          if e.operationID != request.operationID || e.stepID != request.stepID ||
            e.containerID != request.containerID ||
             e.bootID != request.bootID || e.requestedAt != request.requestedAt
          {
            return Refused(e.(state := StopUnknown));
          }
          e := e.(state := ClassifyStop(DispatchPossible, e, polls[n].now));
          if e.state == StopConfirmed { return Accepted(e); }
          if e.state == StopFailed { return Refused(e); }
          if e.state == StopUnknown { return Refused(e); }
        }
        n := n + 1;
      }
      return TimedOut;
    }

    /** Step S03 as the coordinator runs it: dispatch, then wait. */
    method StopAndWait(request: StopRequest, stopped: bool, polls: seq<Poll>) returns (outcome: Outcome)
      requires Valid()
      modifies this
      ensures Valid()
      ensures outcome.Accepted? ==>
                && history == old(history) + [request]
                && exists n :: 0 <= n < |polls| && Proves(request, polls[n], outcome.stop)
    {
      var ok := DispatchGracefulStop(request, stopped);
      if !ok { return NotAcknowledged; }
      outcome := WaitStopped(request, polls);
      if outcome.Accepted? {
        ghost var n :| 0 <= n < |polls| && Decides(acknowledged, request, polls[n]) &&
                       outcome.stop == JudgeStop(request, Observed(acknowledged, request, polls[n]), polls[n].now);
        ConfirmedExactlyIfProven(acknowledged, request, polls[n]);
      }
    }
  }

  /** Everything that must be true of one poll for its stop to count as the effect of the request. */
  ghost predicate Proves(request: StopRequest, p: Poll, stop: StopEvidence) {
    && p.lifecycle.Some?
    && var l := p.lifecycle.value;
    && l.containerID == request.containerID && !l.running && l.exitCode == 0 && !l.oomKilled
    && request.requestedAt != ZERO_TIME && request.requestedAt <= l.finishedAt <= l.observedAt
    && FreshEvidence(l.observedAt, p.now)
    && Terminal(request, p) && Logged(request, p)
    && request.operationID != "" && request.stepID != "" && request.containerID != "" && request.bootID != ""
    && stop == Observed(Some(request), request, p).(state := StopConfirmed)
  }

  /**
   An observation is confirmed if and only if this process had the same request acknowledged and the poll proves it.
   */
  lemma ConfirmedExactlyIfProven(acknowledged: Option<StopRequest>, request: StopRequest, p: Poll)
    requires p.lifecycle.Some?
    ensures var stop := JudgeStop(request, Observed(acknowledged, request, p), p.now);
            stop.state == StopConfirmed <==> acknowledged == Some(request) && Proves(request, p, stop)
  {
  }

  /**
   Evidence accepted while the step was possibly dispatched is still confirmed once it is acknowledged, at S04 and
   S05.
   */
  lemma AcceptedStaysConfirmed(acknowledged: Option<StopRequest>, request: StopRequest, p: Poll)
    requires p.lifecycle.Some?
    requires JudgeStop(request, Observed(acknowledged, request, p), p.now).state == StopConfirmed
    ensures var stop := JudgeStop(request, Observed(acknowledged, request, p), p.now);
            ClassifyStop(Acknowledged, stop, stop.observedAt) == StopConfirmed
  {
  }

  /** When S03 is about to be recorded as expected and correlated, the stop it records is proven to be ours. */
  lemma RecordedStopIsProven(s: Workflow.System, c: ID, f: Workflow.Frame, at: Time, before: SafetyObservation,
                             o: Workflow.Oracle, acknowledged: Option<StopRequest>, p: Poll)
    requires c in s.coordinators && p.lifecycle.Some? && p.now == o.now
    requires var request := StopRequest(s.coordinators[c].operationID, f.a.stepID, f.i.containerID,
                                        f.i.expectedBootID, at);
             o.stop == Observed(acknowledged, request, p)
    requires Workflow.StopStep(s, c, f, at, before, o).coordinators[c].pc.Recording?
    ensures var request := StopRequest(s.coordinators[c].operationID, f.a.stepID, f.i.containerID, f.i.expectedBootID,
                                       at);
            var pc := Workflow.StopStep(s, c, f, at, before, o).coordinators[c].pc;
            && acknowledged == Some(request)
            && pc.evidence.StopReady? && Proves(request, p, pc.evidence.ready.stop)
            && ClassifyStop(Acknowledged, pc.evidence.ready.stop, pc.evidence.ready.stop.observedAt) == StopConfirmed
  {
    hide Observed, Proves;
    var request := StopRequest(s.coordinators[c].operationID, f.a.stepID, f.i.containerID, f.i.expectedBootID, at);
    ConfirmedExactlyIfProven(acknowledged, request, p);
    AcceptedStaysConfirmed(acknowledged, request, p);
  }
}
