/**
 The leased admission state: who may connect is decided from the last state written,
 and an OPEN state never outlives its lease of at most thirty seconds.
 */
module Admission {
  import opened Domain
  import opened Octets

  const MAX_LEASE := 30 * SECOND
  const GUARD_FRESHNESS := 3 * SECOND

  datatype Mode = ModeClosed | ModeOpen | OtherMode(text: string)

  datatype State = State(pairingID: ID, generation: int, mode: Mode, reason: string, issuedAt: Time, expiresAt: Time)

  /** The state file as a reader finds it. */
  datatype File = Missing | Unreadable | Present(state: State)

  datatype Config = Config(pairingID: ID, generation: int, maxConnections: nat)

  datatype Reason =
    | StateMissing | StateInvalid | IdentityMismatch | AdmissionClosed | LeaseExpired | LeaseInvalid | AdmissionOpen
    | GuardUnavailable | GuardNotReady | GuardNotOpen | GuardConfirmed

  datatype Access = Access(open: bool, reason: Reason)

  function EvaluateState(config: Config, file: File, now: Time): Access {
    match file
    case Missing => Access(false, StateMissing)
    case Unreadable => Access(false, StateInvalid)
    case Present(state) =>
      if state.pairingID != config.pairingID || state.generation != config.generation
      then Access(false, IdentityMismatch)
      else if state.issuedAt == ZERO_TIME || state.issuedAt > now + 2 * SECOND || |state.reason| > 256 then
        Access(false, StateInvalid)
      else
        match state.mode
        case ModeClosed => Access(false, AdmissionClosed)
        case ModeOpen =>
          if state.expiresAt == ZERO_TIME || now >= state.expiresAt then Access(false, LeaseExpired)
          else if state.expiresAt - state.issuedAt > MAX_LEASE || state.expiresAt <= state.issuedAt then
            Access(false, LeaseInvalid)
          else Access(true, AdmissionOpen)
        case OtherMode(_) => Access(false, StateInvalid)
  }

  /** What the guard inside the server last published. */
  datatype Guard = Guard(schema: string, pairingID: ID, bootID: ID, observedAt: Time, ready: bool, admission: string)

  const GUARD_SCHEMA := "gar.paper-runtime-observation.v1"

  predicate GuardReady(config: Config, guard: Guard, now: Time) {
    && guard.schema == GUARD_SCHEMA && guard.pairingID == config.pairingID && guard.bootID != "" && guard.ready
    && guard.observedAt != ZERO_TIME && guard.observedAt <= now + 2 * SECOND &&
      now - guard.observedAt <= GUARD_FRESHNESS
  }

  function EvaluateAccess(config: Config, file: File, guard: Option<Guard>, now: Time): Access {
    var decision := EvaluateState(config, file, now);
    if !decision.open then decision
    else if guard.None? then Access(false, GuardUnavailable)
    else if !GuardReady(config, guard.value, now) then Access(false, GuardNotReady)
    else if guard.value.admission != "OPEN_READ_ONLY_ALPHA" then Access(false, GuardNotOpen)
    else Access(true, GuardConfirmed)
  }

  /** Access is open exactly on an unexpired lease of at most thirty seconds that the guard confirms. */
  lemma OpenExactlyOnConfirmedLease(config: Config, file: File, guard: Option<Guard>, now: Time)
    ensures EvaluateAccess(config, file, guard, now).open <==>
            && file.Present? && file.state.pairingID == config.pairingID && file.state.generation == config.generation
            && file.state.mode == ModeOpen && |file.state.reason| <= 256 && file.state.issuedAt != ZERO_TIME
            && file.state.issuedAt - 2 * SECOND <= now < file.state.expiresAt && file.state.expiresAt != ZERO_TIME
            && file.state.issuedAt < file.state.expiresAt <= file.state.issuedAt + 30 * SECOND
            && guard.Some? && guard.value.schema == "gar.paper-runtime-observation.v1"
            && guard.value.pairingID == config.pairingID && guard.value.bootID != "" && guard.value.ready
            && guard.value.observedAt != ZERO_TIME
            && guard.value.observedAt - 2 * SECOND <= now <= guard.value.observedAt + 3 * SECOND
            && guard.value.admission == "OPEN_READ_ONLY_ALPHA"
  {
  }

  // ---- Writing --------------------------------------------------------------------

  predicate MayWrite(mode: Mode, reason: string, lease: int) {
    && |reason| <= 256
    && match mode
       case ModeClosed => lease == 0
       case ModeOpen => 0 < lease <= MAX_LEASE
       case OtherMode(_) => false
  }

  function Issued(config: Config, mode: Mode, reason: string, lease: int, now: Time): State {
    State(config.pairingID, config.generation, mode, reason, now, if mode == ModeOpen then now + lease else ZERO_TIME)
  }

  /** Where writing the file may fail. */
  datatype Fault = NoFault | BeforeRename | AfterRename

  class StateFile {
    var file: File
    /** Every state that reached the file, in order. */
    ghost var written: seq<State>

    ghost predicate Valid()
      reads this
    {
      written != [] ==> file == Present(written[|written| - 1])
    }

    constructor (file: File)
      ensures Valid() && this.file == file && written == []
    {
      this.file := file;
      written := [];
    }

    /** Replaces the file atomically; a failure after the rename is reported although the state is in place. */
    method WriteState(config: Config, mode: Mode, reason: string, lease: int, now: Time, fault: Fault)
      returns (r: Option<State>)
      requires Valid()
      modifies this
      ensures Valid()
      ensures r == if MayWrite(mode, reason, lease) && fault.NoFault?
                   then Some(Issued(config, mode, reason, lease, now)) else None
      ensures if MayWrite(mode, reason, lease) && !fault.BeforeRename?
              then written == old(written) + [Issued(config, mode, reason, lease, now)]
              else written == old(written) && file == old(file)
      ensures written != old(written) <==>
              && |reason| <= 256 && !fault.BeforeRename?
              && ((mode == ModeClosed && lease == 0) || (mode == ModeOpen && 0 < lease <= 30 * SECOND))
      ensures r.Some? ==>
                && file == Present(r.value) && r.value.pairingID == config.pairingID &&
                  r.value.generation == config.generation
                && r.value.mode == mode && r.value.reason == reason && r.value.issuedAt == now
                && r.value.expiresAt == if mode == ModeOpen then now + lease else ZERO_TIME
    {
      if |reason| > 256 { return None; }
      var state := State(config.pairingID, config.generation, mode, reason, now, ZERO_TIME);
      match mode {
        case ModeClosed => if lease != 0 { return None; }
        case ModeOpen =>
          if lease <= 0 || lease > MAX_LEASE { return None; }
          state := state.(expiresAt := state.issuedAt + lease);
        case OtherMode(_) => return None;
      }
      if fault.BeforeRename? { return None; }
      file := Present(state);
      written := written + [state];
      if fault.AfterRename? { return None; }
      return Some(state);
    }
  }

  /** A lease written at t opens admission from t until it runs out, and at no later time. */
  lemma LeaseOpensExactlyItsWindow(config: Config, reason: string, lease: int, t: Time, now: Time)
    requires MayWrite(ModeOpen, reason, lease) && t > ZERO_TIME && now >= t
    ensures EvaluateState(config, Present(Issued(config, ModeOpen, reason, lease, t)), now).open <==> now < t + lease
  {
  }

  /** A CLOSED state keeps admission closed forever. */
  lemma ClosedStaysClosed(config: Config, reason: string, t: Time, guard: Option<Guard>, now: Time)
    ensures !EvaluateAccess(config, Present(Issued(config, ModeClosed, reason, 0, t)), guard, now).open
  {
  }
}
