/**
 What the gate keeps in every interleaving: the session count and its limit, which connections
 are tracked, and that a pass over a closed gate leaves no earlier session forwarding.
 */
module GateSafety {
  import opened Domain
  import opened Octets
  import opened Admission
  import opened Gate

  predicate InSession(pc: Pc) {
    pc in {Admitted, Opened, Dialed, Forwarding, ClosingClient, ClosingUpstream, Untracking, Ending}
  }

  predicate Connected(pc: Pc) {
    pc in {Forwarding, ClosingClient, ClosingUpstream, Untracking}
  }

  predicate LetThrough(pc: Pc) {
    pc in {Opened, Dialed, Forwarding, ClosingClient, ClosingUpstream, Untracking}
  }

  /** Bytes may pass between the client and the server. */
  predicate Relays(pc: Pc) {
    pc in {Forwarding, ClosingClient, ClosingUpstream}
  }

  function Sessions(s: System): set<ID> {
    set h | h in s.handlers && InSession(s.handlers[h].pc)
  }

  predicate Tracked(s: System, c: Conn) {
    c.h in s.handlers && if c.Client? then InSession(s.handlers[c.h].pc) else Connected(s.handlers[c.h].pc)
  }

  ghost predicate TableOK(s: System) {
    && s.table.max == s.config.maxConnections
    && (forall c :: c in s.table.connections <==> Tracked(s, c))
    && s.table.active == |Sessions(s)| && s.table.active <= s.table.max
  }

  ghost predicate FileOK(s: System) {
    if s.written == [] then !s.file.Present? else s.file == Present(s.written[|s.written| - 1])
  }

  /** The lease on which a handler was let through. */
  ghost predicate Justified(s: System, h: Handler) {
    && 0 < h.decidedOn <= |s.written|
    && var state := s.written[h.decidedOn - 1];
    && state.mode == ModeOpen && h.decidedNow < state.expiresAt && h.decidedNow - state.issuedAt < 30 * SECOND
  }

  /** Whether a handler was admitted, and whether it forwarded to the end, agrees with where it is. */
  predicate FlagsOK(h: Handler) {
    && (InSession(h.pc) || h.pc == Left ==> h.admitted)
    && (h.admitted ==> InSession(h.pc) || h.pc == Left || h.pc == Gone)
    && (h.relayed ==> h.pc in {ClosingUpstream, Untracking, Ending, Left, Gone})
    && (h.pc in {ClosingUpstream, Untracking} ==> h.relayed)
  }

  ghost predicate HandlerOK(s: System, h: Handler) {
    && FlagsOK(h) && (h.admitted || InSession(h.pc) ==> h.admittedAt < s.steps)
    && (LetThrough(h.pc) ==> h.admittedAt <= h.decidedAt < s.steps && Justified(s, h))
  }

  ghost predicate HandlersOK(s: System) {
    forall h :: h in s.handlers ==> HandlerOK(s, s.handlers[h])
  }

  ghost predicate PassOK(s: System, p: Pass) {
    !p.Decided? ==>
      && p.at < s.steps && p.on <= |s.written| && (p.Closing? ==> p.pending <= p.snapshot)
      && (forall c :: c in p.snapshot && (p.Closing? ==> c !in p.pending) ==> c in s.closed)
      && (forall h :: h in s.handlers ==> SeenBy(s.handlers[h], Client(h), p))
  }

  /** A session that began before the snapshot is in it; a decision made after it saw at least as many writes. */
  predicate SeenBy(h: Handler, client: Conn, p: Pass)
    requires !p.Decided?
  {
    && (InSession(h.pc) && h.admittedAt < p.at ==> client in p.snapshot)
    && (LetThrough(h.pc) && p.at <= h.decidedAt ==> p.on <= h.decidedOn)
    && (InSession(h.pc) ==> h.admittedAt != p.at)
  }

  ghost predicate PassesOK(s: System) {
    forall p :: p in s.passes ==> PassOK(s, s.passes[p])
  }

  /** The handler itself has closed this connection of its own. */
  predicate SelfClosed(s: System, c: Conn) {
    && c.h in s.handlers
    && var h := s.handlers[c.h];
       if c.Client? then h.pc == Gone || h.relayed else h.relayed && h.pc != ClosingUpstream
  }

  /** A pass had it in its snapshot and has closed it. */
  predicate SweptBy(p: Pass, c: Conn) {
    !p.Decided? && c in p.snapshot && (p.Closing? ==> c !in p.pending)
  }

  ghost predicate Swept(s: System, c: Conn) {
    exists p :: p in s.passes && SweptBy(s.passes[p], c)
  }

  /** What is closed, and by whom. */
  ghost predicate ClosedOK(s: System) {
    forall c :: c in s.closed <==> SelfClosed(s, c) || Swept(s, c)
  }

  ghost predicate Good(s: System) {
    TableOK(s) && FileOK(s) && HandlersOK(s) && PassesOK(s) && ClosedOK(s)
  }

  // ---- One handler moves -----------------------------------------------------------

  /** Handler h went from one state to another, and the table followed. */
  ghost predicate Moves(s: System, s': System, h: ID) {
    && h in s.handlers && h in s'.handlers && s'.handlers == s.handlers[h := s'.handlers[h]]
    && s'.config == s.config && s'.file == s.file && s'.written == s.written && s'.passes == s.passes
    && s'.steps == s.steps + 1 && s.closed <= s'.closed
    && (forall c :: c in s'.closed && c !in s.closed ==> c.h == h)
  }

  lemma SessionCount(s: System, s': System, h: ID)
    requires Moves(s, s', h)
    ensures |Sessions(s')| == |Sessions(s)| + (if InSession(s'.handlers[h].pc) then 1 else 0)
                                            - (if InSession(s.handlers[h].pc) then 1 else 0)
  {
    hide InSession;
    var before, after := Sessions(s), Sessions(s');
    forall g | g != h ensures g in before <==> g in after {
      assert g in s.handlers <==> g in s'.handlers;
    }
    Without(before, h);
    Without(after, h);
    assert before - {h} == after - {h};
  }

  lemma Without(sessions: set<ID>, h: ID)
    ensures |sessions| == |sessions - {h}| + if h in sessions then 1 else 0
  {
    if h in sessions {
      assert sessions == (sessions - {h}) + {h};
    } else {
      assert sessions == sessions - {h};
    }
  }

  ghost predicate TableFollows(s: System, s': System, h: ID)
    requires h in s.handlers && h in s'.handlers
  {
    && s'.table.max == s.table.max
    && (forall c: Conn :: c.h != h ==> (c in s'.table.connections <==> c in s.table.connections))
    && (Client(h) in s'.table.connections <==> InSession(s'.handlers[h].pc))
    && (Upstream(h) in s'.table.connections <==> Connected(s'.handlers[h].pc))
    && s'.table.active == s.table.active + (if InSession(s'.handlers[h].pc) then 1 else 0)
                                         - (if InSession(s.handlers[h].pc) then 1 else 0)
    && s'.table.active <= s'.table.max
  }

  lemma MoveKeepsTable(s: System, s': System, h: ID)
    requires TableOK(s) && Moves(s, s', h) && TableFollows(s, s', h)
    ensures TableOK(s')
  {
    SessionCount(s, s', h);
    hide Sessions, InSession, Connected;
    forall c: Conn ensures c in s'.table.connections <==> Tracked(s', c) {
      if c.h != h { assert c in s.table.connections <==> Tracked(s, c); }
    }
  }

  lemma MoveKeepsRest(s: System, s': System, h: ID)
    requires HandlersOK(s) && PassesOK(s) && Moves(s, s', h) && HandlerOK(s', s'.handlers[h])
    requires forall p :: p in s.passes && !s.passes[p].Decided? ==> SeenBy(s'.handlers[h], Client(h), s.passes[p])
    ensures HandlersOK(s') && PassesOK(s')
  {
    hide SeenBy, InSession, LetThrough;
    forall g | g in s'.handlers ensures HandlerOK(s', s'.handlers[g]) {
      if g != h { assert HandlerOK(s, s.handlers[g]); }
    }
    forall p | p in s'.passes ensures PassOK(s', s'.passes[p]) {
      assert PassOK(s, s.passes[p]);
    }
  }

  /** Later states of a session keep what was known when it was let through. */
  lemma LaterKeepsKnowledge(s: System, s': System, h: ID)
    requires Moves(s, s', h) && HandlersOK(s) && PassesOK(s)
    requires var x, y := s.handlers[h], s'.handlers[h];
             && y == x.(pc := y.pc, relayed := y.relayed) && (FlagsOK(x) ==> FlagsOK(y))
             && (InSession(y.pc) ==> InSession(x.pc)) && (LetThrough(y.pc) ==> LetThrough(x.pc))
    ensures HandlerOK(s', s'.handlers[h])
    ensures forall p :: p in s.passes && !s.passes[p].Decided? ==> SeenBy(s'.handlers[h], Client(h), s.passes[p])
  {
    hide InSession, LetThrough, FlagsOK;
    assert HandlerOK(s, s.handlers[h]);
    forall p | p in s.passes && !s.passes[p].Decided? ensures SeenBy(s'.handlers[h], Client(h), s.passes[p]) {
      assert PassOK(s, s.passes[p]);
    }
  }

  lemma AdmissionKeepsKnowledge(s: System, s': System, h: ID)
    requires Moves(s, s', h) && HandlersOK(s) && PassesOK(s) && s.handlers[h].pc == Accepted
    requires s'.handlers[h] == s.handlers[h].(pc := Admitted, admitted := true, admittedAt := s.steps)
    ensures HandlerOK(s', s'.handlers[h])
    ensures forall p :: p in s.passes && !s.passes[p].Decided? ==> SeenBy(s'.handlers[h], Client(h), s.passes[p])
  {
    assert HandlerOK(s, s.handlers[h]);
    forall p | p in s.passes && !s.passes[p].Decided? ensures SeenBy(s'.handlers[h], Client(h), s.passes[p]) {
      assert PassOK(s, s.passes[p]);
    }
  }

  lemma OpeningKeepsKnowledge(s: System, s': System, h: ID, now: Time, guard: Option<Guard>)
    requires Moves(s, s', h) && HandlersOK(s) && PassesOK(s) && FileOK(s) && s.handlers[h].pc == Admitted
    requires EvaluateAccess(s.config, s.file, guard, now).open
    requires s'.handlers[h] == s.handlers[h].(pc := Opened, decidedAt := s.steps, decidedOn := |s.written|,
                                              decidedNow := now)
    ensures HandlerOK(s', s'.handlers[h])
    ensures forall p :: p in s.passes && !s.passes[p].Decided? ==> SeenBy(s'.handlers[h], Client(h), s.passes[p])
  {
    assert HandlerOK(s, s.handlers[h]);
    OpenExactlyOnConfirmedLease(s.config, s.file, guard, now);
    hide EvaluateAccess;
    forall p | p in s.passes && !s.passes[p].Decided? ensures SeenBy(s'.handlers[h], Client(h), s.passes[p]) {
      assert PassOK(s, s.passes[p]) && SeenBy(s.handlers[h], Client(h), s.passes[p]);
    }
  }

  lemma HandlerMoves(s: System, elapsed: nat, h: ID, guard: Option<Guard>, ok: bool)
    requires h in s.handlers
    ensures Moves(s, Next(s, elapsed, Step(h, guard, ok)), h)
  {
    hide EvaluateAccess;
  }

  lemma HandlerTable(s: System, elapsed: nat, h: ID, guard: Option<Guard>, ok: bool)
    requires h in s.handlers && TableOK(s)
    ensures var s' := Next(s, elapsed, Step(h, guard, ok)); h in s'.handlers && TableFollows(s, s', h)
  {
    hide HandlerStep, TableOK, TableFollows;
    var waited := s.(now := s.now + elapsed);
    assert TableOK(waited) by { SameTable(s, waited); }
    StepTable(waited, h, guard, ok);
    SameFollows(waited, HandlerStep(waited, h, guard, ok), s, Next(s, elapsed, Step(h, guard, ok)), h);
  }

  lemma SameTable(s: System, s': System)
    requires TableOK(s) && s'.table == s.table && s'.handlers == s.handlers && s'.config == s.config
    ensures TableOK(s')
  {
    hide InSession, Connected;
    assert Sessions(s') == Sessions(s);
    forall c: Conn ensures Tracked(s', c) <==> Tracked(s, c) { }
  }

  lemma SameFollows(s: System, s': System, t: System, t': System, h: ID)
    requires h in s.handlers && h in s'.handlers && TableFollows(s, s', h)
    requires t.table == s.table && t.handlers == s.handlers && t'.table == s'.table && t'.handlers == s'.handlers
    ensures TableFollows(t, t', h)
  {
    hide InSession, Connected;
  }

  lemma StepTable(s: System, h: ID, guard: Option<Guard>, ok: bool)
    requires h in s.handlers && TableOK(s)
    ensures var s' := HandlerStep(s, h, guard, ok); h in s'.handlers && TableFollows(s, s', h)
  {
    hide Lets, Sessions;
    assert Client(h) in s.table.connections <==> Tracked(s, Client(h));
    assert Upstream(h) in s.table.connections <==> Tracked(s, Upstream(h));
  }

  predicate Admits(s: System, x: Handler, y: Handler) {
    x.pc == Accepted && y == x.(pc := Admitted, admitted := true, admittedAt := s.steps)
  }

  predicate Opens(s: System, x: Handler, y: Handler, guard: Option<Guard>, now: Time) {
    && x.pc == Admitted && EvaluateAccess(s.config, s.file, guard, now).open
    && y == x.(pc := Opened, decidedAt := s.steps, decidedOn := |s.written|, decidedNow := now)
  }

  predicate Proceeds(x: Handler, y: Handler) {
    && y == x.(pc := y.pc, relayed := y.relayed) && (FlagsOK(x) ==> FlagsOK(y))
    && (InSession(y.pc) ==> InSession(x.pc)) && (LetThrough(y.pc) ==> LetThrough(x.pc))
  }

  lemma EntryFollows(s: System, h: ID, guard: Option<Guard>, ok: bool)
    requires h in s.handlers && (s.handlers[h].pc == Accepted || s.handlers[h].pc == Admitted)
    ensures var s' := HandlerStep(s, h, guard, ok);
            && h in s'.handlers
            && (|| Admits(s, s.handlers[h], s'.handlers[h])
                || Opens(s, s.handlers[h], s'.handlers[h], guard, s.now)
                || Proceeds(s.handlers[h], s'.handlers[h]))
  {
    hide EvaluateAccess, Start;
  }

  lemma HandlerProceeds(s: System, h: ID, guard: Option<Guard>, ok: bool)
    requires h in s.handlers && s.handlers[h].pc != Accepted && s.handlers[h].pc != Admitted
    ensures h in HandlerStep(s, h, guard, ok).handlers
    ensures Proceeds(s.handlers[h], HandlerStep(s, h, guard, ok).handlers[h])
  {
    hide Lets, Start, Track, Untrack, End;
  }

  lemma HandlerKnowledge(s: System, elapsed: nat, h: ID, guard: Option<Guard>, ok: bool)
    requires h in s.handlers && HandlersOK(s) && PassesOK(s) && FileOK(s)
    ensures var s' := Next(s, elapsed, Step(h, guard, ok));
            && h in s'.handlers && HandlerOK(s', s'.handlers[h])
            && forall p :: p in s.passes && !s.passes[p].Decided? ==> SeenBy(s'.handlers[h], Client(h), s.passes[p])
  {
    hide EvaluateAccess, HandlersOK, PassesOK, FileOK, SeenBy, HandlerOK, FlagsOK, InSession, LetThrough, HandlerStep;
    var s' := Next(s, elapsed, Step(h, guard, ok));
    HandlerMoves(s, elapsed, h, guard, ok);
    if s.handlers[h].pc == Accepted || s.handlers[h].pc == Admitted {
      EntryFollows(s.(now := s.now + elapsed), h, guard, ok);
    } else {
      HandlerProceeds(s.(now := s.now + elapsed), h, guard, ok);
    }
    if Admits(s, s.handlers[h], s'.handlers[h]) {
      AdmissionKeepsKnowledge(s, s', h);
    } else if Proceeds(s.handlers[h], s'.handlers[h]) {
      LaterKeepsKnowledge(s, s', h);
    } else {
      OpeningKeepsKnowledge(s, s', h, s.now + elapsed, guard);
    }
  }

  /** What a handler closes when it leaves this state. */
  function ClosedIn(pc: Pc, h: ID): set<Conn> {
    if pc in {Refused, ClosingClient, Left} then {Client(h)} else if pc == ClosingUpstream then {Upstream(h)} else {}
  }

  lemma StepCloses(s: System, h: ID, guard: Option<Guard>, ok: bool)
    requires h in s.handlers
    ensures var s' := HandlerStep(s, h, guard, ok);
            && s'.closed == s.closed + ClosedIn(s.handlers[h].pc, h) && s'.passes == s.passes
            && h in s'.handlers && s'.handlers == s.handlers[h := s'.handlers[h]]
  {
    hide HandlerStep;
    StepMovesOne(s, h, guard, ok);
    ClosesOwn(s, h, guard, ok);
  }

  lemma StepMovesOne(s: System, h: ID, guard: Option<Guard>, ok: bool)
    requires h in s.handlers
    ensures var s' := HandlerStep(s, h, guard, ok);
            s'.passes == s.passes && h in s'.handlers && s'.handlers == s.handlers[h := s'.handlers[h]]
  {
    hide Lets, Start, Track, Untrack, End;
  }

  lemma ClosesOwn(s: System, h: ID, guard: Option<Guard>, ok: bool)
    requires h in s.handlers
    ensures HandlerStep(s, h, guard, ok).closed == s.closed + ClosedIn(s.handlers[h].pc, h)
  {
    hide Lets, Start, Track, Untrack, End;
  }

  lemma StepFlags(s: System, h: ID, guard: Option<Guard>, ok: bool)
    requires h in s.handlers
    ensures h in HandlerStep(s, h, guard, ok).handlers
    ensures var x, y := s.handlers[h], HandlerStep(s, h, guard, ok).handlers[h];
            && (y.relayed <==> x.relayed || x.pc == ClosingClient)
            && (y.pc == Gone <==> x.pc == Refused || x.pc == Left || x.pc == Gone)
            && (y.pc == ClosingUpstream <==> x.pc == ClosingClient)
  {
    hide HandlerStep;
    StepMovesOne(s, h, guard, ok);
    StepRelays(s, h, guard, ok);
    StepEnds(s, h, guard, ok);
  }

  lemma StepRelays(s: System, h: ID, guard: Option<Guard>, ok: bool)
    requires h in s.handlers && h in HandlerStep(s, h, guard, ok).handlers
    ensures var x, y := s.handlers[h], HandlerStep(s, h, guard, ok).handlers[h];
            (y.relayed <==> x.relayed || x.pc == ClosingClient) && (y.pc == ClosingUpstream <==> x.pc == ClosingClient)
  {
    hide Lets, Start, Track, Untrack, End;
  }

  lemma StepEnds(s: System, h: ID, guard: Option<Guard>, ok: bool)
    requires h in s.handlers && h in HandlerStep(s, h, guard, ok).handlers
    ensures var x, y := s.handlers[h], HandlerStep(s, h, guard, ok).handlers[h];
            y.pc == Gone <==> x.pc == Refused || x.pc == Left || x.pc == Gone
  {
    hide Lets, Start, Track, Untrack, End;
  }

  /** A handler closes its own connections, and says so. */
  lemma HandlerCloses(s: System, elapsed: nat, h: ID, guard: Option<Guard>, ok: bool)
    requires h in s.handlers && HandlersOK(s) && ClosedOK(s)
    ensures ClosedOK(Next(s, elapsed, Step(h, guard, ok)))
  {
    hide HandlerStep, InSession, LetThrough, Justified, HandlersOK;
    var s' := Next(s, elapsed, Step(h, guard, ok));
    FlagsOf(s, h);
    StepCloses(s.(now := s.now + elapsed), h, guard, ok);
    StepFlags(s.(now := s.now + elapsed), h, guard, ok);
    forall c ensures Swept(s', c) <==> Swept(s, c) { SamePasses(s, s', c); }
    hide Swept;
    forall c: Conn | c.h != h ensures SelfClosed(s', c) <==> SelfClosed(s, c) { }
    assert Client(h) in s'.closed <==> SelfClosed(s', Client(h)) || Swept(s, Client(h));
    assert Upstream(h) in s'.closed <==> SelfClosed(s', Upstream(h)) || Swept(s, Upstream(h));
  }

  lemma FlagsOf(s: System, h: ID)
    requires HandlersOK(s) && h in s.handlers
    ensures FlagsOK(s.handlers[h])
  {
    hide FlagsOK, InSession, LetThrough, Justified;
    assert HandlerOK(s, s.handlers[h]);
  }

  lemma SamePasses(s: System, s': System, c: Conn)
    requires s'.passes == s.passes
    ensures Swept(s', c) <==> Swept(s, c)
  {
  }

  lemma HandlerStepIsGood(s: System, elapsed: nat, h: ID, guard: Option<Guard>, ok: bool)
    requires Good(s) && h in s.handlers
    ensures Good(Next(s, elapsed, Step(h, guard, ok)))
  {
    hide TableOK, HandlersOK, PassesOK, ClosedOK, TableFollows, HandlerOK, SeenBy, Next;
    var s' := Next(s, elapsed, Step(h, guard, ok));
    HandlerMoves(s, elapsed, h, guard, ok);
    HandlerTable(s, elapsed, h, guard, ok);
    HandlerKnowledge(s, elapsed, h, guard, ok);
    HandlerCloses(s, elapsed, h, guard, ok);
    MoveKeepsTable(s, s', h);
    MoveKeepsRest(s, s', h);
  }

  // ---- Everything else -----------------------------------------------------------------

  lemma AcceptIsGood(s: System, elapsed: nat, h: ID)
    requires Good(s)
    ensures Good(Next(s, elapsed, Accept(h)))
  {
    var s' := Next(s, elapsed, Accept(h));
    assert Sessions(s') == Sessions(s);
    forall c: Conn ensures Tracked(s', c) <==> Tracked(s, c) { }
    forall p | p in s'.passes ensures PassOK(s', s'.passes[p]) { assert PassOK(s, s.passes[p]); }
  }

  /** A pass closes what it takes off its list. */
  lemma PassesClose(s: System, elapsed: nat, action: Action)
    requires PassesOK(s) && ClosedOK(s) && (action.Monitor? || action.Shutdown? || action.Sweep? || action.Write?)
    ensures ClosedOK(Next(s, elapsed, action))
  {
    hide EvaluateAccess, MayWrite, Issued, PassOK;
    var s' := Next(s, elapsed, action);
    forall c ensures SelfClosed(s', c) <==> SelfClosed(s, c) { }
    forall c ensures c in s'.closed <==> SelfClosed(s, c) || Swept(s', c) { OnePassMoves(s, elapsed, action, c); }
  }

  lemma OnePassMoves(s: System, elapsed: nat, action: Action, c: Conn)
    requires PassesOK(s) && ClosedOK(s) && (action.Monitor? || action.Shutdown? || action.Sweep? || action.Write?)
    ensures var s' := Next(s, elapsed, action); c in s'.closed <==> SelfClosed(s, c) || Swept(s', c)
  {
    hide EvaluateAccess, MayWrite, Issued, SelfClosed;
    var s' := Next(s, elapsed, action);
    assert c in s.closed <==> SelfClosed(s, c) || Swept(s, c);
    if Swept(s, c) {
      var p :| p in s.passes && SweptBy(s.passes[p], c);
      assert SweptBy(s'.passes[p], c);
    }
    if action.Sweep? && action.p in s.passes && c in s'.closed && c !in s.closed {
      assert PassOK(s, s.passes[action.p]);
      assert SweptBy(s'.passes[action.p], c);
    }
  }

  lemma StaysJustified(s: System, s': System, h: Handler)
    requires s.written <= s'.written
    ensures Justified(s, h) ==> Justified(s', h)
  {
  }

  lemma OthersLeaveHandlers(s: System, elapsed: nat, action: Action)
    requires action.Monitor? || action.Shutdown? || action.Sweep? || action.Write?
    ensures var s' := Next(s, elapsed, action);
            && s'.handlers == s.handlers && s'.table == s.table && s'.config == s.config && s'.steps == s.steps + 1
            && s.written <= s'.written && s.closed <= s'.closed && (FileOK(s) ==> FileOK(s'))
  {
    hide EvaluateAccess, MayWrite, Issued;
  }

  lemma OthersKeepPasses(s: System, elapsed: nat, action: Action)
    requires action.Monitor? || action.Shutdown? || action.Sweep? || action.Write?
    requires TableOK(s) && HandlersOK(s) && PassesOK(s)
    ensures PassesOK(Next(s, elapsed, action))
  {
    hide EvaluateAccess, MayWrite, Issued, InSession, LetThrough, Connected, Justified, FlagsOK, Sessions;
    var s' := Next(s, elapsed, action);
    forall p | p in s'.passes ensures PassOK(s', s'.passes[p]) {
      if p in s.passes { assert PassOK(s, s.passes[p]); }
    }
  }

  lemma SameHandlers(s: System, s': System)
    requires TableOK(s) && HandlersOK(s) && s'.handlers == s.handlers && s'.table == s.table && s'.config == s.config
    requires s'.steps >= s.steps && s.written <= s'.written
    ensures TableOK(s') && HandlersOK(s')
  {
    hide InSession, LetThrough, Connected, Justified, FlagsOK;
    assert Sessions(s') == Sessions(s);
    forall c: Conn ensures Tracked(s', c) <==> Tracked(s, c) { }
    forall h | h in s'.handlers ensures HandlerOK(s', s'.handlers[h]) {
      assert HandlerOK(s, s.handlers[h]);
      StaysJustified(s, s', s.handlers[h]);
    }
  }

  /** Passes and writes leave handlers and the table alone. */
  lemma OthersAreGood(s: System, elapsed: nat, action: Action)
    requires Good(s) && (action.Monitor? || action.Shutdown? || action.Sweep? || action.Write?)
    ensures Good(Next(s, elapsed, action))
  {
    hide TableOK, FileOK, HandlersOK, PassesOK, ClosedOK, Next;
    OthersLeaveHandlers(s, elapsed, action);
    SameHandlers(s, Next(s, elapsed, action));
    OthersKeepPasses(s, elapsed, action);
    PassesClose(s, elapsed, action);
  }

  lemma NextIsGood(s: System, elapsed: nat, action: Action)
    requires Good(s)
    ensures Good(Next(s, elapsed, action))
  {
    if action.Accept? { AcceptIsGood(s, elapsed, action.h); }
    else if action.Step? {
      if action.h in s.handlers { HandlerStepIsGood(s, elapsed, action.h, action.guard, action.ok); }
      else { IdleIsGood(s, elapsed, action); }
    }
    else { OthersAreGood(s, elapsed, action); }
  }

  lemma IdleIsGood(s: System, elapsed: nat, action: Action)
    requires Good(s) && action.Step? && action.h !in s.handlers
    ensures Good(Next(s, elapsed, action))
  {
    hide InSession, LetThrough, Connected, HandlersOK, TableOK;
    var s' := Next(s, elapsed, action);
    SameHandlers(s, s');
    forall c ensures Swept(s', c) <==> Swept(s, c) { SamePasses(s, s', c); }
    forall p | p in s'.passes ensures PassOK(s', s'.passes[p]) { assert PassOK(s, s.passes[p]); }
  }

  lemma {:induction false} RunIsGood(s: System, actions: seq<(nat, Action)>)
    requires Initial(s)
    ensures Good(Run(s, actions))
  {
    if actions == [] {
      assert Sessions(s) == {};
    } else {
      hide Good, Next;
      var last := actions[|actions| - 1];
      RunIsGood(s, actions[..|actions| - 1]);
      NextIsGood(Run(s, actions[..|actions| - 1]), last.0, last.1);
    }
  }

  // ---- What the gate guarantees ------------------------------------------------------------

  /** The session count is the number of live sessions, and never exceeds the limit. */
  lemma SessionsAreCounted(s: System, actions: seq<(nat, Action)>)
    requires Initial(s)
    ensures var s' := Run(s, actions);
            s'.table.active == |Sessions(s')| && s'.table.active <= s'.config.maxConnections
  {
    RunIsGood(s, actions);
    hide Run, HandlersOK, PassesOK;
  }

  /**
   A session that may forward bytes has both its connections tracked, and the table holds nothing but live sessions.
   */
  lemma ForwardingIsTracked(s: System, actions: seq<(nat, Action)>, h: ID)
    requires Initial(s)
    ensures var s' := Run(s, actions);
            && (h in s'.handlers && Relays(s'.handlers[h].pc) ==>
                  Client(h) in s'.table.connections && Upstream(h) in s'.table.connections)
            && (Client(h) in s'.table.connections ==> h in Sessions(s'))
            && (Upstream(h) in s'.table.connections ==> h in Sessions(s'))
  {
    RunIsGood(s, actions);
    hide Run, HandlersOK, PassesOK;
    var s' := Run(s, actions);
    assert Client(h) in s'.table.connections <==> Tracked(s', Client(h));
    assert Upstream(h) in s'.table.connections <==> Tracked(s', Upstream(h));
  }

  /**
   When a pass ends, every live session that began before its snapshot has its client closed. A client that was let
   through and is still open was let through after the snapshot, on an OPEN lease less than thirty seconds old then.
   */
  lemma PassClosesEarlierSessions(s: System, actions: seq<(nat, Action)>, p: ID, h: ID)
    requires Initial(s) && p in Run(s, actions).passes && Run(s, actions).passes[p].Done?
    requires h in Run(s, actions).handlers && InSession(Run(s, actions).handlers[h].pc)
    ensures var s' := Run(s, actions);
            var pass, handler := s'.passes[p], s'.handlers[h];
            && (handler.admittedAt < pass.at ==> Client(h) in s'.closed)
            && (Client(h) !in s'.closed ==> pass.at < handler.admittedAt)
            && (Client(h) !in s'.closed && LetThrough(handler.pc) ==>
                  && pass.at < handler.admittedAt <= handler.decidedAt && pass.on <= handler.decidedOn
                  && Justified(s', handler))
  {
    RunIsGood(s, actions);
    hide Run, TableOK;
    var s' := Run(s, actions);
    assert PassOK(s', s'.passes[p]) && SeenBy(s'.handlers[h], Client(h), s'.passes[p]);
    assert HandlerOK(s', s'.handlers[h]);
  }

  /**
   Of all clients admitted before a finished pass's snapshot, exactly those stay open that have left the table without
   having forwarded and are in nobody's snapshot that was closed: their handler is about to close them.
   */
  lemma OpenAfterPassIff(s: System, actions: seq<(nat, Action)>, p: ID, h: ID)
    requires Initial(s) && p in Run(s, actions).passes && Run(s, actions).passes[p].Done?
    requires h in Run(s, actions).handlers && Run(s, actions).handlers[h].admitted
    requires Run(s, actions).handlers[h].admittedAt < Run(s, actions).passes[p].at
    ensures var s' := Run(s, actions);
            Client(h) !in s'.closed <==>
            && s'.handlers[h].pc == Left && !s'.handlers[h].relayed && Client(h) !in s'.passes[p].snapshot
            && forall q :: q in s'.passes ==> !SweptBy(s'.passes[q], Client(h))
  {
    RunIsGood(s, actions);
    hide Run, TableOK, Initial;
    var s' := Run(s, actions);
    assert PassOK(s', s'.passes[p]) && SeenBy(s'.handlers[h], Client(h), s'.passes[p]);
    FlagsOf(s', h);
    assert Client(h) in s'.closed <==> SelfClosed(s', Client(h)) || Swept(s', Client(h));
  }

  /** If nothing OPEN was in force or written since a pass took its snapshot, the pass leaves no client connected. */
  lemma ClosedPassLeavesNobody(s: System, actions: seq<(nat, Action)>, p: ID, h: ID)
    requires Initial(s) && p in Run(s, actions).passes && Run(s, actions).passes[p].Done?
    requires var s' := Run(s, actions);
             forall m :: s'.passes[p].on - 1 <= m < |s'.written| && 0 <= m ==> s'.written[m].mode != ModeOpen
    ensures var s' := Run(s, actions); h in s'.handlers && Relays(s'.handlers[h].pc) ==> Client(h) in s'.closed
  {
    var s' := Run(s, actions);
    if h in s'.handlers && Relays(s'.handlers[h].pc) { PassClosesEarlierSessions(s, actions, p, h); }
  }

  // ---- What the monitor starts ---------------------------------------------------------------

  /** A poll with a new pass starts it exactly if access is not open then, and touches nothing else. */
  lemma MonitorStartsPassIff(s: System, elapsed: nat, p: ID, guard: Option<Guard>)
    requires p !in s.passes
    ensures var s' := Next(s, elapsed, Monitor(p, guard));
            && (p in s'.passes <==> !EvaluateAccess(s.config, s.file, guard, s.now + elapsed).open)
            && s'.passes == (if p in s'.passes then s.passes[p := Decided] else s.passes)
            && s'.handlers == s.handlers && s'.table == s.table && s'.closed == s.closed && s'.file == s.file
  {
    hide EvaluateAccess;
  }

  /** A shutdown starts a pass in any case. */
  lemma ShutdownStartsPass(s: System, elapsed: nat, p: ID)
    requires p !in s.passes
    ensures var s' := Next(s, elapsed, Shutdown(p));
            s'.passes == s.passes[p := Decided] && s'.handlers == s.handlers && s'.closed == s.closed
  {
  }

  /** An admitted client is let through exactly if access is open then; otherwise its session ends. */
  lemma ClientIsLetThroughIff(s: System, elapsed: nat, h: ID, guard: Option<Guard>, ok: bool)
    requires h in s.handlers && s.handlers[h].pc == Admitted
    ensures var s' := Next(s, elapsed, Step(h, guard, ok));
            && h in s'.handlers
            && s'.handlers[h].pc ==
               if EvaluateAccess(s.config, s.file, guard, s.now + elapsed).open then Opened else Ending
  {
    hide EvaluateAccess;
  }

  /** The pass is still there, and any snapshot it has was taken at step n or later. */
  predicate Since(s: System, p: ID, n: nat) {
    n <= s.steps && p in s.passes && (s.passes[p].Decided? || n <= s.passes[p].at)
  }

  /** Once in the table, a handler stays known as admitted at the same step. */
  predicate AdmittedAt(s: System, h: ID, at: nat) {
    h in s.handlers && s.handlers[h].admitted && s.handlers[h].admittedAt == at
  }

  lemma NextKeepsPass(s: System, elapsed: nat, action: Action, p: ID, n: nat)
    requires Since(s, p, n)
    ensures Since(Next(s, elapsed, action), p, n)
  {
    hide EvaluateAccess, MayWrite, Issued;
  }

  lemma NextKeepsAdmission(s: System, elapsed: nat, action: Action, h: ID, at: nat)
    requires Good(s) && AdmittedAt(s, h, at)
    ensures AdmittedAt(Next(s, elapsed, action), h, at)
  {
    hide EvaluateAccess, MayWrite, Issued, TableOK, PassesOK, ClosedOK;
    FlagsOf(s, h);
  }

  lemma {:induction false} RunSince(s: System, first: seq<(nat, Action)>, rest: seq<(nat, Action)>, p: ID, h: ID,
                                    at: nat)
    requires Initial(s) && Since(Run(s, first), p, Run(s, first).steps)
    ensures Since(Run(s, first + rest), p, Run(s, first).steps)
    ensures AdmittedAt(Run(s, first), h, at) ==> AdmittedAt(Run(s, first + rest), h, at)
  {
    hide Since, AdmittedAt, Next, Initial, Good;
    if rest == [] {
      assert first + rest == first;
    } else {
      var before, last := rest[..|rest| - 1], rest[|rest| - 1];
      RunSince(s, first, before, p, h, at);
      RunIsGood(s, first + before);
      assert first + rest == (first + before) + [(last.0, last.1)];
      RunOneMore(s, first + before, last.0, last.1);
      NextKeepsPass(Run(s, first + before), last.0, last.1, p, Run(s, first).steps);
      if AdmittedAt(Run(s, first), h, at) { NextKeepsAdmission(Run(s, first + before), last.0, last.1, h, at); }
    }
  }

  /**
   A poll that finds access closed: whatever happens afterwards its pass is there, and once it has been swept every
   session admitted before the poll has its client closed. A client from before the poll that is still open has just
   left the table, without having forwarded, and is about to be closed.
   */
  lemma ClosedPollEndsSessions(s: System, first: seq<(nat, Action)>, elapsed: nat, p: ID, guard: Option<Guard>,
                               rest: seq<(nat, Action)>, h: ID)
    requires Initial(s) && p !in Run(s, first).passes
    requires var polled := Run(s, first);
             && !EvaluateAccess(polled.config, polled.file, guard, polled.now + elapsed).open
             && h in polled.handlers && polled.handlers[h].admitted
    ensures var s' := Run(s, first + [(elapsed, Monitor(p, guard))] + rest);
            && p in s'.passes && h in s'.handlers
            && (s'.passes[p].Done? && InSession(s'.handlers[h].pc) ==> Client(h) in s'.closed)
            && (s'.passes[p].Done? && Client(h) !in s'.closed ==> s'.handlers[h].pc == Left && !s'.handlers[h].relayed)
  {
    var polled := Run(s, first);
    var before := first + [(elapsed, Monitor(p, guard))];
    RunIsGood(s, first);
    RunOneMore(s, first, elapsed, Monitor(p, guard));
    MonitorStartsPassIff(polled, elapsed, p, guard);
    assert Since(Run(s, before), p, Run(s, before).steps);
    var at := polled.handlers[h].admittedAt;
    assert at < polled.steps by { assert HandlerOK(polled, polled.handlers[h]); }
    NextKeepsAdmission(polled, elapsed, Monitor(p, guard), h, at);
    hide EvaluateAccess, Run, Next, Good, Initial;
    RunSince(s, before, rest, p, h, at);
    var s' := Run(s, before + rest);
    if s'.passes[p].Done? {
      if InSession(s'.handlers[h].pc) { PassClosesEarlierSessions(s, before + rest, p, h); }
      OpenAfterPassIff(s, before + rest, p, h);
    }
  }

  /** Nobody shuts the gate down, and whenever the monitor polls it finds access open. */
  ghost predicate PollsOpen(s: System, actions: seq<(nat, Action)>) {
    forall x :: 0 <= x < |actions| ==> PollOpen(Run(s, actions[..x]), actions[x].0, actions[x].1)
  }

  predicate PollOpen(s: System, elapsed: nat, action: Action) {
    && !action.Shutdown?
    && (action.Monitor? ==> EvaluateAccess(s.config, s.file, action.guard, s.now + elapsed).open)
  }

  lemma NextStartsNoPass(s: System, elapsed: nat, action: Action)
    requires s.passes == map[] && PollOpen(s, elapsed, action)
    ensures Next(s, elapsed, action).passes == map[]
  {
    hide EvaluateAccess, MayWrite, Issued;
  }

  lemma {:induction false} NoPassWhileOpen(s: System, actions: seq<(nat, Action)>)
    requires Initial(s) && PollsOpen(s, actions)
    ensures Run(s, actions).passes == map[]
  {
    if actions != [] {
      hide Next, PollOpen;
      var before, last := actions[..|actions| - 1], actions[|actions| - 1];
      forall x | 0 <= x < |before| ensures PollOpen(Run(s, before[..x]), before[x].0, before[x].1) {
        assert before[..x] == actions[..x];
      }
      NoPassWhileOpen(s, before);
      NextStartsNoPass(Run(s, before), last.0, last.1);
    }
  }

  /** While every poll finds access open, no pass runs, and a connection is closed only by its own handler. */
  lemma OpenGateSweepsNobody(s: System, actions: seq<(nat, Action)>, c: Conn)
    requires Initial(s) && PollsOpen(s, actions)
    ensures var s' := Run(s, actions);
            && s'.passes == map[]
            && (c in s'.closed ==> c.h in s'.handlers && (s'.handlers[c.h].pc == Gone || s'.handlers[c.h].relayed))
  {
    NoPassWhileOpen(s, actions);
    RunIsGood(s, actions);
    hide Run, PollsOpen, Initial;
    var s' := Run(s, actions);
    assert c in s'.closed <==> SelfClosed(s', c) || Swept(s', c);
  }

  /** A pass can always be swept to its end, whatever the others do not do meanwhile. */
  lemma PassCanBeSwept(s: System, p: ID) returns (sweeps: seq<(nat, Action)>)
    requires p in s.passes
    ensures forall x :: 0 <= x < |sweeps| ==> sweeps[x].1.Sweep?
    ensures p in Run(s, sweeps).passes && Run(s, sweeps).passes[p].Done?
    decreases if s.passes[p].Decided? then 1 else 0, if s.passes[p].Closing? then |s.passes[p].pending| + 1 else 0
  {
    if s.passes[p].Done? {
      sweeps := [];
    } else {
      var c :| s.passes[p].Closing? && s.passes[p].pending != {} ==> c in s.passes[p].pending;
      var s' := Next(s, 0, Sweep(p, c));
      var more := PassCanBeSwept(s', p);
      sweeps := [(0, Sweep(p, c))] + more;
      RunFirst(s, (0, Sweep(p, c)), more);
    }
  }

  lemma {:induction false} RunFirst(s: System, first: (nat, Action), more: seq<(nat, Action)>)
    ensures Run(s, [first] + more) == Run(Next(s, first.0, first.1), more)
  {
    hide Next;
    var all := [first] + more;
    if more == [] {
      assert all == [first] && all[..0] == [];
    } else {
      RunFirst(s, first, more[..|more| - 1]);
      assert all[..|all| - 1] == [first] + more[..|more| - 1];
    }
  }

  /** Every open decision is made on the last state written, an OPEN lease issued less than thirty seconds before. */
  lemma OpenDecisionNeedsOpenLease(s: System, actions: seq<(nat, Action)>, elapsed: nat, guard: Option<Guard>)
    requires Initial(s) && Lets(Run(s, actions).(now := Run(s, actions).now + elapsed), guard)
    ensures var s' := Run(s, actions);
            && s'.written != []
            && var last := s'.written[|s'.written| - 1];
            && last.mode == ModeOpen && s'.now + elapsed < last.expiresAt &&
              s'.now + elapsed - last.issuedAt < 30 * SECOND
            && (|s'.written| > |s.written| ==> last.issuedAt <= s'.now + elapsed)
  {
    hide Run, TableOK, HandlersOK, PassesOK, EvaluateAccess, GuardReady, Initial;
    RunIsGood(s, actions);
    WritesAreInThePast(s, actions);
    var s' := Run(s, actions);
    OpenExactlyOnConfirmedLease(s'.config, s'.file, guard, s'.now + elapsed);
  }

  lemma {:induction false} WritesAreInThePast(s: System, actions: seq<(nat, Action)>)
    ensures var s' := Run(s, actions);
            && |s.written| <= |s'.written|
            && forall m :: |s.written| <= m < |s'.written| ==> s'.written[m].issuedAt <= s'.now
  {
    if actions != [] {
      var before, last := Run(s, actions[..|actions| - 1]), actions[|actions| - 1];
      WritesAreInThePast(s, actions[..|actions| - 1]);
      NextWritesNow(before, last.0, last.1);
      hide Next;
    }
  }

  lemma NextWritesNow(s: System, elapsed: nat, action: Action)
    ensures var s' := Next(s, elapsed, action);
            && s.now <= s'.now && s.written <= s'.written
            && forall m :: |s.written| <= m < |s'.written| ==> s'.written[m].issuedAt == s'.now
  {
    hide EvaluateAccess, MayWrite;
  }

  // ---- Why the guarantee is about forwarding sessions -----------------------------------------

  lemma RunOneMore(s: System, actions: seq<(nat, Action)>, elapsed: nat, action: Action)
    ensures Run(s, actions + [(elapsed, action)]) == Next(Run(s, actions), elapsed, action)
  {
    var all := actions + [(elapsed, action)];
    assert all[..|all| - 1] == actions;
  }

  lemma ClientLeaves(s: System, h: ID) returns (actions: seq<(nat, Action)>)
    requires Initial(s) && s.config.maxConnections > 0 && s.file.Missing? && s.closed == {}
    ensures var s' := Run(s, actions);
            && h in s'.handlers && s'.handlers[h].pc == Left && s'.handlers[h].admittedAt < s'.steps
            && s'.closed == {} && s'.passes == map[] && s'.table.connections == {} && s'.file.Missing?
  {
    hide Run;
    var step := Step(h, None, false);
    RunOne(s, Accept(h));
    actions := [(0, Accept(h))];
    assert Run(s, actions).handlers[h].pc == Accepted;
    RunOneMore(s, actions, 0, step);
    actions := actions + [(0, step)];
    assert Run(s, actions).handlers[h].pc == Admitted && Run(s, actions).file.Missing?;
    RunOneMore(s, actions, 0, step);
    actions := actions + [(0, step)];
    assert Run(s, actions).handlers[h].pc == Ending;
    RunOneMore(s, actions, 0, step);
    actions := actions + [(0, step)];
  }

  /** A refused client that has just left the table is in no snapshot: a whole pass can end before it is closed. */
  lemma LeavingClientOutlivesPass(s: System, h: ID, p: ID)
    requires Initial(s) && s.config.maxConnections > 0 && s.file.Missing? && s.closed == {}
    ensures exists actions ::
              var s' := Run(s, actions);
              && h in s'.handlers && s'.handlers[h].pc == Left && Client(h) !in s'.closed
              && p in s'.passes && s'.passes[p].Done? && s'.handlers[h].admittedAt < s'.passes[p].at
  {
    hide Run, HandlerStep;
    var actions := ClientLeaves(s, h);
    RunOneMore(s, actions, 0, Monitor(p, None));
    actions := actions + [(0, Monitor(p, None))];
    RunOneMore(s, actions, 0, Sweep(p, Client(h)));
    actions := actions + [(0, Sweep(p, Client(h)))];
    RunOneMore(s, actions, 0, Sweep(p, Client(h)));
    actions := actions + [(0, Sweep(p, Client(h)))];
  }

  /** On a confirmed lease a client does come to forward. */
  lemma ForwardingIsReachable(s: System, h: ID, guard: Option<Guard>) returns (actions: seq<(nat, Action)>)
    requires Initial(s) && s.config.maxConnections > 0 && EvaluateAccess(s.config, s.file, guard, s.now).open
    ensures var s' := Run(s, actions);
            && h in s'.handlers && s'.handlers[h].pc == Forwarding
            && s'.table.connections == {Client(h), Upstream(h)} && s'.closed == {}
  {
    hide Run, EvaluateAccess;
    var step := Step(h, guard, true);
    RunOne(s, Accept(h));
    actions := [(0, Accept(h))];
    assert Run(s, actions) == s.(handlers := map[h := Handler(Accepted, false, 0, 0, 0, ZERO_TIME, false)],
                                 steps := s.steps + 1);
    RunOneMore(s, actions, 0, step);
    actions := actions + [(0, step)];
    assert Run(s, actions).table == Table({Client(h)}, 1, s.table.max) && Run(s, actions).handlers[h].pc == Admitted;
    RunOneMore(s, actions, 0, step);
    actions := actions + [(0, step)];
    assert Run(s, actions).handlers[h].pc == Opened;
    RunOneMore(s, actions, 0, step);
    actions := actions + [(0, step)];
    assert Run(s, actions).handlers[h].pc == Dialed;
    RunOneMore(s, actions, 0, step);
    actions := actions + [(0, step)];
  }

  lemma RunOne(s: System, action: Action)
    ensures Run(s, [(0, action)]) == Next(s, 0, action)
  {
    RunOneMore(s, [], 0, action);
    assert [] + [(0, action)] == [(0, action)];
  }
}
