/**
 The admission gate: connection handlers, monitor passes and shutdowns interleave over one
 mutex-guarded connection table while the state file is being rewritten.
 */
module Gate {
  import opened Domain
  import opened Octets
  import opened Admission

  /** Each handler has one client connection and at most one connection upstream. */
  datatype Conn = Client(h: ID) | Upstream(h: ID)

  // ---- The table -------------------------------------------------------------------

  datatype Table = Table(connections: set<Conn>, active: int, max: nat)

  function Start(t: Table, c: Conn): (Table, bool) {
    if t.active >= t.max then (t, false)
    else (t.(connections := t.connections + {c}, active := t.active + 1), true)
  }

  function End(t: Table, c: Conn): Table {
    t.(connections := t.connections - {c}, active := t.active - 1)
  }

  function Track(t: Table, c: Conn): Table {
    t.(connections := t.connections + {c})
  }

  function Untrack(t: Table, c: Conn): Table {
    t.(connections := t.connections - {c})
  }

  /** Ending the session that was just started gives the table back. */
  lemma EndUndoesStart(t: Table, c: Conn)
    requires c !in t.connections && t.active < t.max
    ensures Start(t, c).1 && End(Start(t, c).0, c) == t
  {
    assert t.connections + {c} - {c} == t.connections;
  }

  function Clients(connections: set<Conn>): set<ID> {
    set c | c in connections && c.Client? :: c.h
  }

  lemma ClientAdded(connections: set<Conn>, h: ID)
    ensures Clients(connections + {Client(h)}) == Clients(connections) + {h}
    ensures Clients(connections - {Client(h)}) == Clients(connections) - {h}
    ensures h in Clients(connections) <==> Client(h) in connections
    ensures h in Clients(connections) ==> |Clients(connections) - {h}| == |Clients(connections)| - 1
  {
    forall g ensures g in Clients(connections) <==> Client(g) in connections { ClientOf(connections, g); }
    forall g ensures g in Clients(connections + {Client(h)}) <==> Client(g) in connections + {Client(h)} {
      ClientOf(connections + {Client(h)}, g);
    }
    forall g ensures g in Clients(connections - {Client(h)}) <==> Client(g) in connections - {Client(h)} {
      ClientOf(connections - {Client(h)}, g);
    }
    hide Clients;
    assert Clients(connections + {Client(h)}) == Clients(connections) + {h};
    assert Clients(connections - {Client(h)}) == Clients(connections) - {h};
    if h in Clients(connections) { assert Clients(connections) == (Clients(connections) - {h}) + {h}; }
  }

  lemma ClientOf(connections: set<Conn>, h: ID)
    ensures h in Clients(connections) <==> Client(h) in connections
  {
  }

  lemma UpstreamIsNoClient(connections: set<Conn>, h: ID)
    ensures Clients(connections + {Upstream(h)}) == Clients(connections) == Clients(connections - {Upstream(h)})
  {
  }

  /** The mutex-guarded state of the gate. Its count is the number of clients in the table, within the limit. */
  class Registry {
    const max: nat
    var connections: set<Conn>
    var activeSessions: int
    /** Connections closed so far. */
    var closed: set<Conn>

    function State(): Table
      reads this
    {
      Table(connections, activeSessions, max)
    }

    function Sessions(): set<ID>
      reads this
    {
      Clients(connections)
    }

    ghost predicate Valid()
      reads this
    {
      activeSessions == |Sessions()| <= max
    }

    constructor (max: nat)
      ensures Valid() && Sessions() == {} && State() == Table({}, 0, max) && closed == {}
    {
      this.max := max;
      connections := {};
      activeSessions := 0;
      closed := {};
    }

    /** Lets a new client in exactly if the limit is not reached, and then serves one session more. */
    method StartSession(h: ID) returns (ok: bool)
      requires Valid() && h !in Sessions()
      modifies this`connections, this`activeSessions
      ensures Valid()
      ensures ok <==> |old(Sessions())| < max
      ensures Sessions() == old(Sessions()) + if ok then {h} else {}
      ensures forall c :: c != Client(h) ==> (c in connections <==> c in old(connections))
      ensures (State(), ok) == Start(old(State()), Client(h))
    {
      ClientAdded(connections, h);
      hide Clients;
      if activeSessions >= max { return false; }
      activeSessions := activeSessions + 1;
      connections := connections + {Client(h)};
      return true;
    }

    /** Ends a live session: it is out of the table, one session fewer is served, and its client is closed. */
    method EndSession(h: ID)
      requires Valid() && h in Sessions()
      modifies this
      ensures Valid() && |Sessions()| == |old(Sessions())| - 1
      ensures Sessions() == old(Sessions()) - {h}
      ensures forall c :: c != Client(h) ==> (c in connections <==> c in old(connections))
      ensures closed == old(closed) + {Client(h)}
      ensures State() == End(old(State()), Client(h))
    {
      ClientAdded(connections, h);
      hide Clients;
      connections := connections - {Client(h)};
      activeSessions := activeSessions - 1;
      closed := closed + {Client(h)};
    }

    /** Tracks a connection upstream; the sessions stay as they are. */
    method TrackUpstream(h: ID)
      requires Valid()
      modifies this`connections
      ensures Valid() && Sessions() == old(Sessions()) && Upstream(h) in connections
      ensures State() == Track(old(State()), Upstream(h))
    {
      UpstreamIsNoClient(connections, h);
      connections := connections + {Upstream(h)};
    }

    method UntrackUpstream(h: ID)
      requires Valid()
      modifies this`connections
      ensures Valid() && Sessions() == old(Sessions()) && Upstream(h) !in connections
      ensures State() == Untrack(old(State()), Upstream(h))
    {
      UpstreamIsNoClient(connections, h);
      connections := connections - {Upstream(h)};
    }

    /** Closes what the table held when the call began, and tracks it still. */
    method CloseAll()
      requires Valid()
      modifies this`closed
      ensures Valid() && closed == old(closed) + connections
    {
      var pending := connections;
      while pending != {}
        invariant pending <= connections && closed == old(closed) + (connections - pending)
        decreases |pending|
      {
        var c :| c in pending;
        closed := closed + {c};
        pending := pending - {c};
      }
    }
  }

  // ---- Interleavings ----------------------------------------------------------------

  datatype Pc =
    | Accepted            // before startSession
    | Refused             // over the limit, not yet closed
    | Admitted            // in the table, before the access decision
    | Opened              // decided open, before the connection upstream
    | Dialed              // connected upstream, not yet tracked
    | Forwarding          // both copies running
    | ClosingClient | ClosingUpstream | Untracking
    | Ending              // before leaving the table
    | Left                // out of the table, client not yet closed
    | Gone

  /**
   Handlers remember whether and when they entered the table, when and on how many writes they were let through, and
   whether they closed their client after forwarding.
   */
  datatype Handler = Handler(
    pc: Pc, admitted: bool, admittedAt: nat, decidedAt: nat, decidedOn: nat, decidedNow: Time, relayed: bool)

  /**
   A pass over the table: after its decision, and while it closes what its snapshot holds, taken at a step and on so
   many writes.
   */
  datatype Pass =
    | Decided
    | Closing(snapshot: set<Conn>, at: nat, on: nat, pending: set<Conn>)
    | Done(snapshot: set<Conn>, at: nat, on: nat)

  datatype System = System(
    config: Config, table: Table, closed: set<Conn>, handlers: map<ID, Handler>, passes: map<ID, Pass>,
    file: File, written: seq<State>, steps: nat, now: Time)

  datatype Action =
    | Accept(h: ID)
    | Step(h: ID, guard: Option<Guard>, ok: bool)
    | Monitor(p: ID, guard: Option<Guard>)
    | Shutdown(p: ID)
    | Sweep(p: ID, c: Conn)
    | Write(mode: Mode, reason: string, lease: int, fault: Fault)

  function Move(s: System, h: ID, pc: Pc): System
    requires h in s.handlers
  {
    s.(handlers := s.handlers[h := s.handlers[h].(pc := pc)])
  }

  function Close(s: System, c: Conn): System {
    s.(closed := s.closed + {c})
  }

  predicate Lets(s: System, guard: Option<Guard>) {
    EvaluateAccess(s.config, s.file, guard, s.now).open
  }

  /** One handler past one shared effect. While it forwards, `ok` says that a copy ended. */
  function HandlerStep(s: System, h: ID, guard: Option<Guard>, ok: bool): System
    requires h in s.handlers
  {
    match s.handlers[h].pc
    case Accepted =>
      var (table, admitted) := Start(s.table, Client(h));
      if admitted
      then s.(table := table,
              handlers := s.handlers[h := s.handlers[h].(pc := Admitted, admitted := true, admittedAt := s.steps)])
      else Move(s, h, Refused)
    case Refused => Close(Move(s, h, Gone), Client(h))
    case Admitted =>
      if Lets(s, guard)
      then s.(handlers := s.handlers[h := s.handlers[h].(pc := Opened, decidedAt := s.steps, decidedOn := |s.written|,
                                                         decidedNow := s.now)])
      else Move(s, h, Ending)
    case Opened => if ok then Move(s, h, Dialed) else Move(s, h, Ending)
    case Dialed => Move(s, h, Forwarding).(table := Track(s.table, Upstream(h)))
    case Forwarding => if ok then Move(s, h, ClosingClient) else s
    case ClosingClient =>
      Close(s.(handlers := s.handlers[h := s.handlers[h].(pc := ClosingUpstream, relayed := true)]), Client(h))
    case ClosingUpstream => Close(Move(s, h, Untracking), Upstream(h))
    case Untracking => Move(s, h, Ending).(table := Untrack(s.table, Upstream(h)))
    case Ending => Move(s, h, Left).(table := End(s.table, Client(h)))
    case Left => Close(Move(s, h, Gone), Client(h))
    case Gone => s
  }

  function SweepStep(s: System, p: ID, c: Conn): System
    requires p in s.passes
  {
    match s.passes[p]
    case Decided =>
      s.(passes := s.passes[p := Closing(s.table.connections, s.steps, |s.written|, s.table.connections)])
    case Closing(snapshot, at, on, pending) =>
      if pending == {} then s.(passes := s.passes[p := Done(snapshot, at, on)])
      else if c in pending then Close(s.(passes := s.passes[p := Closing(snapshot, at, on, pending - {c})]), c)
      else s
    case Done(_, _, _) => s
  }

  function Write(s: System, mode: Mode, reason: string, lease: int, fault: Fault): System {
    if MayWrite(mode, reason, lease) && !fault.BeforeRename? then
      var state := Issued(s.config, mode, reason, lease, s.now);
      s.(file := Present(state), written := s.written + [state])
    else s
  }

  function Act(s: System, action: Action): System {
    match action
    case Accept(h) =>
      if h in s.handlers then s
      else s.(handlers := s.handlers[h := Handler(Accepted, false, 0, 0, 0, ZERO_TIME, false)])
    case Step(h, guard, ok) => if h in s.handlers then HandlerStep(s, h, guard, ok) else s
    case Monitor(p, guard) => if p in s.passes || Lets(s, guard) then s else s.(passes := s.passes[p := Decided])
    case Shutdown(p) => if p in s.passes then s else s.(passes := s.passes[p := Decided])
    case Sweep(p, c) => if p in s.passes then SweepStep(s, p, c) else s
    case Write(mode, reason, lease, fault) => Write(s, mode, reason, lease, fault)
  }

  /** Every action takes some time, possibly none. */
  function Next(s: System, elapsed: nat, action: Action): System {
    var s' := Act(s.(now := s.now + elapsed), action);
    s'.(steps := s'.steps + 1)
  }

  /** No session yet; a state found in place counts as the first one written. */
  predicate Initial(s: System) {
    && s.table == Table({}, 0, s.config.maxConnections) && s.handlers == map[] && s.passes == map[]
    && s.closed == {} && s.written == (if s.file.Present? then [s.file.state] else [])
  }

  function Run(s: System, actions: seq<(nat, Action)>): System {
    if actions == [] then s
    else
      var last := actions[|actions| - 1];
      Next(Run(s, actions[..|actions| - 1]), last.0, last.1)
  }
}
