/**
 Whole runs against the Paper target: every process remembers the last stop request that Docker acknowledged to it,
 forgets it when it restarts, and answers for a stop from that memory and one poll. Any number of coordinators run in
 any number of processes.
 */
module PaperRuns {
  import opened Octets
  import opened Domain
  import opened Journal
  import opened Workflow
  import opened Progress
  import opened StopRecords
  import PaperStop

  /** Which process a coordinator runs in, and which container the target of a process is configured for. */
  datatype Hosts = Hosts(process: ID -> ID, container: ID -> ID)

  datatype Acknowledgement = Acknowledgement(process: ID, request: StopRequest)

  /** A stop that was confirmed, with the request and the poll it was judged from. */
  datatype Acceptance = Acceptance(process: ID, request: StopRequest, poll: PaperStop.Poll, stop: StopEvidence)

  datatype Paper = Paper(
    s: System, memory: map<ID, StopRequest>, acknowledged: seq<Acknowledgement>, accepted: seq<Acceptance>)

  datatype PaperAction = Act(action: Action) | Answer(c: ID, o: Oracle, poll: PaperStop.Poll) | Restart(process: ID)

  /** The stop request this coordinator is about to dispatch. */
  function Outgoing(co: Coordinator): StopRequest
    requires co.pc.Dispatching?
  {
    StopRequest(co.operationID, co.pc.f.a.stepID, co.pc.f.i.containerID, co.pc.f.i.expectedBootID, co.pc.at)
  }

  predicate DispatchesStop(s: System, action: Action) {
    && action.Tick? && action.c in s.coordinators
    && s.coordinators[action.c].pc.Dispatching? && s.coordinators[action.c].pc.f.n == 3
  }

  predicate AwaitsStop(s: System, c: ID) {
    c in s.coordinators && s.coordinators[c].pc.AwaitingStop?
  }

  /** Whether the target takes the request and Docker acknowledges it. */
  predicate Acknowledges(hosts: Hosts, process: ID, request: StopRequest, o: Oracle) {
    request.containerID == hosts.container(process) && PaperStop.Target.Complete(request) && !o.fail
  }

  function Memory(p: Paper, process: ID): Option<StopRequest> {
    if process in p.memory then Some(p.memory[process]) else None
  }

  const SILENCE := StopEvidence(StopUnknown, "", "", "", "", 0, 0, 0, false, false, 0, false, false, false,
                                Unattributed, [])

  /** What the target says about the stop; a poll without a lifecycle says nothing. */
  ghost function Reply(p: Paper, process: ID, request: StopRequest, poll: PaperStop.Poll): StopEvidence {
    if poll.lifecycle.Some? then PaperStop.Observed(Memory(p, process), request, poll) else SILENCE
  }

  /** The plain action that a target action amounts to. */
  ghost function Plain(hosts: Hosts, p: Paper, a: PaperAction): Option<Action> {
    match a
    case Act(action) =>
      if action.Tick? && AwaitsStop(p.s, action.c) then None
      else if DispatchesStop(p.s, action) then
        var ok := Acknowledges(hosts, hosts.process(action.c), Outgoing(p.s.coordinators[action.c]), action.o);
        Some(Tick(action.c, action.o.(fail := !ok)))
      else Some(action)
    case Answer(c, o, poll) =>
      if AwaitsStop(p.s, c)
      then Some(Tick(c, o.(now := poll.now, stop := Reply(p, hosts.process(c), RequestOf(p.s.coordinators[c]), poll))))
      else None
    case Restart(_) => None
  }

  ghost function PaperNext(hosts: Hosts, p: Paper, a: PaperAction): Paper {
    var plain := Plain(hosts, p, a);
    var p' := if plain.Some? then p.(s := Next(p.s, plain.value)) else p;
    if a.Restart? then p'.(memory := p.memory - {a.process})
    else if plain.None? || !plain.value.Tick? then p'
    else if DispatchesStop(p.s, plain.value) && !plain.value.o.fail then
      var process, request := hosts.process(plain.value.c), Outgoing(p.s.coordinators[plain.value.c]);
      p'.(memory := p.memory[process := request], acknowledged := p.acknowledged + [Acknowledgement(process, request)])
    else if a.Answer? && Confirms(p.s, plain.value) then
      p'.(accepted := p.accepted + [Acceptance(hosts.process(a.c), RequestOf(p.s.coordinators[a.c]), a.poll,
                                               JudgedBy(p.s.coordinators[a.c], plain.value.o))])
    else p'
  }

  ghost function PaperRun(hosts: Hosts, digests: Digests, actions: seq<PaperAction>): Paper {
    if actions == [] then Paper(Initial(digests), map[], [], [])
    else PaperNext(hosts, PaperRun(hosts, digests, actions[..|actions| - 1]), actions[|actions| - 1])
  }

  ghost predicate AllOurs(actions: seq<PaperAction>) {
    forall x :: 0 <= x < |actions| && actions[x].Act? ==> Internal(actions[x].action)
  }

  // ---- Against the target the machine does nothing else than before -------------------------------

  lemma PlainIsInternal(hosts: Hosts, p: Paper, a: PaperAction)
    requires a.Act? ==> Internal(a.action)
    ensures var plain := Plain(hosts, p, a); plain.Some? ==> Internal(plain.value)
  {
    hide Reply, Acknowledges;
  }

  /** The plain run behind a run against the target. */
  lemma {:induction false} PaperRefines(hosts: Hosts, digests: Digests, actions: seq<PaperAction>)
    returns (plain: seq<Action>)
    requires AllOurs(actions)
    ensures AllInternal(plain) && PaperRun(hosts, digests, actions).s == Run(Initial(digests), plain)
  {
    if actions == [] {
      plain := [];
    } else {
      hide Next, Plain, Internal;
      var before := actions[..|actions| - 1];
      var p, a := PaperRun(hosts, digests, before), actions[|actions| - 1];
      plain := PaperRefines(hosts, digests, before);
      PlainIsInternal(hosts, p, a);
      if Plain(hosts, p, a).Some? {
        var longer := plain + [Plain(hosts, p, a).value];
        assert longer[..|plain|] == plain;
        plain := longer;
      }
    }
  }

  // ---- What is accepted is proven -------------------------------------------------------------------

  ghost predicate Answered(hosts: Hosts, p: Paper, process: ID, request: StopRequest) {
    Acknowledgement(process, request) in p.acknowledged && request.containerID == hosts.container(process)
  }

  /** The poll proves that this stop is the effect of the request, which this very process had acknowledged. */
  ghost predicate Proven(hosts: Hosts, p: Paper, a: Acceptance) {
    Answered(hosts, p, a.process, a.request) && PaperStop.Proves(a.request, a.poll, a.stop)
  }

  ghost predicate TargetOK(hosts: Hosts, p: Paper) {
    && (forall process :: process in p.memory ==> Answered(hosts, p, process, p.memory[process]))
    && (forall x :: 0 <= x < |p.accepted| ==> Proven(hosts, p, p.accepted[x]))
  }

  lemma ConfirmedIsProven(hosts: Hosts, p: Paper, a: PaperAction)
    requires TargetOK(hosts, p) && a.Answer? && Plain(hosts, p, a).Some? && Confirms(p.s, Plain(hosts, p, a).value)
    ensures var request := RequestOf(p.s.coordinators[a.c]);
            && Answered(hosts, p, hosts.process(a.c), request)
            && PaperStop.Proves(request, a.poll, JudgedBy(p.s.coordinators[a.c], Plain(hosts, p, a).value.o))
  {
    hide PaperStop.Observed, PaperStop.Proves, Answered;
    if a.poll.lifecycle.Some? {
      PaperStop.ConfirmedExactlyIfProven(Memory(p, hosts.process(a.c)), RequestOf(p.s.coordinators[a.c]), a.poll);
    }
  }

  lemma NextIsProven(hosts: Hosts, p: Paper, a: PaperAction)
    requires TargetOK(hosts, p)
    ensures TargetOK(hosts, PaperNext(hosts, p, a))
  {
    hide Next, Reply, JudgedBy, PaperStop.Proves;
    var p' := PaperNext(hosts, p, a);
    assert p.acknowledged <= p'.acknowledged;
    if a.Answer? && Plain(hosts, p, a).Some? && Confirms(p.s, Plain(hosts, p, a).value) {
      ConfirmedIsProven(hosts, p, a);
    }
    forall x | 0 <= x < |p'.accepted| ensures Proven(hosts, p', p'.accepted[x]) {
      if x < |p.accepted| { assert Proven(hosts, p, p.accepted[x]); }
    }
  }

  lemma {:induction false} RunIsProven(hosts: Hosts, digests: Digests, actions: seq<PaperAction>)
    ensures TargetOK(hosts, PaperRun(hosts, digests, actions))
  {
    if actions == [] {
    } else {
      hide TargetOK, PaperNext;
      RunIsProven(hosts, digests, actions[..|actions| - 1]);
      NextIsProven(hosts, PaperRun(hosts, digests, actions[..|actions| - 1]), actions[|actions| - 1]);
    }
  }

  /** An answer leads to recording the stop if and only if the process remembers this request and the poll proves it. */
  lemma RecordsExactlyTheProven(hosts: Hosts, p: Paper, c: ID, o: Oracle, poll: PaperStop.Poll)
    requires AwaitsStop(p.s, c)
    ensures var request := RequestOf(p.s.coordinators[c]);
            var p' := PaperNext(hosts, p, Answer(c, o, poll));
            && c in p'.s.coordinators
            && (p'.s.coordinators[c].pc.Recording? <==>
                && Memory(p, hosts.process(c)) == Some(request) && poll.lifecycle.Some?
                && PaperStop.Proves(request, poll,
                                    PaperStop.Observed(Some(request), request, poll).(state := StopConfirmed)))
  {
    hide PaperStop.Observed, PaperStop.Proves;
    var request := RequestOf(p.s.coordinators[c]);
    var plain := Plain(hosts, p, Answer(c, o, poll)).value;
    StopIsJudged(p.s, c, plain.o);
    hide JudgeStop, Next;
    if poll.lifecycle.Some? {
      PaperStop.ConfirmedExactlyIfProven(Memory(p, hosts.process(c)), request, poll);
      ConfirmedIffProven(request, poll);
    }
  }

  lemma ConfirmedIffProven(request: StopRequest, poll: PaperStop.Poll)
    requires poll.lifecycle.Some?
    ensures var stop := PaperStop.Observed(Some(request), request, poll);
            JudgeStop(request, stop, poll.now).state == StopConfirmed <==>
            PaperStop.Proves(request, poll, stop.(state := StopConfirmed))
  {
    hide PaperStop.Logged;
  }

  lemma StopIsJudged(s: System, c: ID, o: Oracle)
    requires AwaitsStop(s, c)
    ensures var s' := Next(s, Tick(c, o));
            c in s'.coordinators &&
            (s'.coordinators[c].pc.Recording? <==>
             JudgeStop(RequestOf(s.coordinators[c]), o.stop, o.now).state == StopConfirmed)
  {
    hide LoopHead, PrepareNext, CheckStep, DispatchStep, AfterFailedCreate, CreateStep, InspectStep, Perform, JudgeStop;
  }

  // ---- What the journal holds was accepted ------------------------------------------------------------

  ghost predicate IsAccepted(p: Paper, stop: StopEvidence) {
    exists x :: 0 <= x < |p.accepted| && p.accepted[x].stop == stop
  }

  ghost function AcceptedStops(p: Paper): iset<StopEvidence> {
    iset stop: StopEvidence | IsAccepted(p, stop)
  }

  lemma AcceptedGrows(hosts: Hosts, p: Paper, a: PaperAction)
    ensures AcceptedStops(p) <= AcceptedStops(PaperNext(hosts, p, a))
  {
    hide Plain, Next, Outgoing, RequestOf, JudgedBy, DispatchesStop, Confirms;
    var p' := PaperNext(hosts, p, a);
    assert p.accepted <= p'.accepted;
    forall stop | stop in AcceptedStops(p) ensures stop in AcceptedStops(p') {
      var x :| 0 <= x < |p.accepted| && p.accepted[x].stop == stop;
      assert p'.accepted[x].stop == stop;
    }
  }

  /** Only an answer of the target confirms a stop, and then it is accepted. */
  lemma ConfirmedIsAccepted(hosts: Hosts, p: Paper, a: PaperAction)
    requires Plain(hosts, p, a).Some? && Confirms(p.s, Plain(hosts, p, a).value)
    ensures a.Answer? && Plain(hosts, p, a).value.c == a.c
    ensures JudgedBy(p.s.coordinators[a.c], Plain(hosts, p, a).value.o) in AcceptedStops(PaperNext(hosts, p, a))
  {
    hide Reply, JudgedBy, Next, Acknowledges;
    var p' := PaperNext(hosts, p, a);
    assert p'.accepted[|p.accepted|].stop == JudgedBy(p.s.coordinators[a.c], Plain(hosts, p, a).value.o);
  }

  lemma NextIsVouched(hosts: Hosts, p: Paper, a: PaperAction)
    requires Orderly(p.s) && StopsVouched(p.s, AcceptedStops(p)) && (a.Act? ==> Internal(a.action))
    ensures StopsVouched(PaperNext(hosts, p, a).s, AcceptedStops(PaperNext(hosts, p, a)))
  {
    hide Orderly, StopsVouched, AcceptedStops, Plain, Next, Internal, JudgedBy, Confirms;
    var p' := PaperNext(hosts, p, a);
    AcceptedGrows(hosts, p, a);
    PlainIsInternal(hosts, p, a);
    if Plain(hosts, p, a).Some? {
      if Confirms(p.s, Plain(hosts, p, a).value) { ConfirmedIsAccepted(hosts, p, a); }
      NextKeepsStops(p.s, Plain(hosts, p, a).value, AcceptedStops(p), AcceptedStops(p'));
    } else {
      PlacesKeepStops(p.s, p'.s, AcceptedStops(p), AcceptedStops(p'));
    }
  }

  lemma {:induction false} RunIsVouched(hosts: Hosts, digests: Digests, actions: seq<PaperAction>)
    requires AllOurs(actions)
    ensures var p := PaperRun(hosts, digests, actions); StopsVouched(p.s, AcceptedStops(p))
  {
    if actions == [] {
    } else {
      hide StopsVouched, AcceptedStops, PaperNext, Orderly, Run;
      var before := actions[..|actions| - 1];
      RunIsVouched(hosts, digests, before);
      var plain := PaperRefines(hosts, digests, before);
      RunIsOrderly(digests, plain);
      NextIsVouched(hosts, PaperRun(hosts, digests, before), actions[|actions| - 1]);
    }
  }

  lemma ProvenTellsRequest(request: StopRequest, poll: PaperStop.Poll, stop: StopEvidence)
    requires PaperStop.Proves(request, poll, stop)
    ensures request == StopRequest(stop.operationID, stop.stepID, stop.containerID, stop.bootID, stop.requestedAt)
    ensures ClassifyStop(Acknowledged, stop, stop.observedAt) == StopConfirmed
  {
  }

  /**
   In every run against the Paper target: a complete S03 holds one piece of stop evidence that some poll proves to be
   the effect of the request of this very step to the server its intent names, and the process that accepted it is one
   to which Docker had acknowledged that request.
   */
  lemma CompleteStopIsProven(hosts: Hosts, digests: Digests, actions: seq<PaperAction>, k: ID) returns (a: Acceptance)
    requires AllOurs(actions) && k in PaperRun(hosts, digests, actions).s.j.operations
    requires Stopped(PaperRun(hosts, digests, actions).s.j.operations[k].payload)
    ensures var p := PaperRun(hosts, digests, actions);
            var attempt := p.s.j.operations[k].payload.attempts[3];
            && |attempt.evidence| == 1 && attempt.evidence[0].StopReady? && attempt.evidence[0].ready.stop == a.stop
            && a in p.accepted && PaperStop.Proves(a.request, a.poll, a.stop)
            && ClassifyStop(Acknowledged, a.stop, a.stop.observedAt) == StopConfirmed
            && Acknowledgement(a.process, a.request) in p.acknowledged
            && a.request.containerID == hosts.container(a.process)
            && a.request.operationID == k && a.request.stepID == attempt.stepID && Fits(p.s.j, k, a.stop)
            && a.request.containerID == a.stop.containerID && a.request.bootID == a.stop.bootID
            && Dispatch(GracefulStop, k, attempt.stepID) in p.s.dispatched
  {
    hide PaperRun, Fits, PaperStop.Proves;
    var p := PaperRun(hosts, digests, actions);
    RunIsVouched(hosts, digests, actions);
    RunIsProven(hosts, digests, actions);
    assert RecordVouched(p.s, AcceptedStops(p), k);
    var stop := p.s.j.operations[k].payload.attempts[3].evidence[0].ready.stop;
    var x :| 0 <= x < |p.accepted| && p.accepted[x].stop == stop;
    a := p.accepted[x];
    assert Proven(hosts, p, p.accepted[x]);
    ProvenTellsRequest(a.request, a.poll, a.stop);
  }
}
