/** The justification handler and the party's session map (justification.rs, party.rs), as objects on shared state. */
module Justification {
  import opened BlockTree
  import opened Sessions

  type Authorities = seq<nat>
  type Multisignature = nat
  type SessionMap = map<SessionId, Authorities>

  /** Stands for the completeness test of a multisignature under a list of authorities. */
  type Verifier = (Authorities, Hash, Multisignature) -> bool

  datatype JustificationNotification = JustificationNotification(signature: Multisignature, hash: Hash, number: nat)

  datatype Option<T> = None | Some(value: T)

  /** What the handler fixes before it waits: the finalized number it read, the session's end and its authorities. */
  datatype Ticket = Ticket(lastFinalized: nat, stop: nat, authorities: Authorities)

  function WantedSession(finalized: nat, period: Period): SessionId
  {
    SessionIdFromBlockNum(finalized + 1, period)
  }

  /** The head of the handler's loop: no ticket while the wanted session's authorities are not known. */
  function TicketFor(finalized: nat, sessions: SessionMap, period: Period): Option<Ticket>
    requires Fits(WantedSession(finalized, period), period)
  {
    var wanted := WantedSession(finalized, period);
    if wanted in sessions then Some(Ticket(finalized, LastBlockOfSession(wanted, period), sessions[wanted])) else None
  }

  /** A notification gets through when verified, above the finalized number read and not above the session's end. */
  predicate Accepts(verifier: Verifier, t: Ticket, n: JustificationNotification)
  {
    verifier(t.authorities, n.hash, n.signature) && t.lastFinalized < n.number <= t.stop
  }

  datatype Timers = Timers(lastRequest: int, lastFinalization: int)

  /** When a justification may be asked for, and the client's block at the session's end, if it has one. */
  datatype Chance = Chance(now: int, block: Option<Hash>)

  /** A request goes out only for a block the client has, and when both timers have run out. */
  function Requested(t: Timers, cadence: nat, number: nat, chance: Chance): Option<AlephData>
  {
    if chance.now - t.lastFinalization > cadence && chance.now - t.lastRequest > 2 * cadence && chance.block.Some? then
      Some(AlephData(chance.block.value, number))
    else None
  }

  /** The session's authorities, unless the runtime fails. */
  function Entered(sessions: SessionMap, session: SessionId, fromRuntime: Option<Authorities>): SessionMap
  {
    if fromRuntime.Some? then sessions[session := fromRuntime.value] else sessions
  }

  /** The party keeps a session's data for ten to twenty sessions. */
  function Pruned(sessions: SessionMap, ended: SessionId): SessionMap
  {
    if ended >= 10 && ended % 10 == 0 then map s | s in sessions && s >= ended - 10 :: sessions[s] else sessions
  }

  /** What the two tasks of a node share. */
  class Shared {
    var finalized: AlephData // the client's
    var sessionAuthorities: SessionMap

    constructor (finalized: AlephData)
      ensures this.finalized == finalized && sessionAuthorities == map[]
    {
      this.finalized := finalized;
      sessionAuthorities := map[];
    }
  }

  class JustificationHandler {
    const shared: Shared
    const period: Period
    const cadence: nat
    var lastRequestTime: int
    var lastFinalizationTime: int

    function Times(): Timers
      reads this
    {
      Timers(lastRequestTime, lastFinalizationTime)
    }

    constructor (shared: Shared, period: Period, cadence: nat, now: int)
      ensures this.shared == shared && this.period == period && this.cadence == cadence
      ensures Times() == Timers(now, now)
    {
      this.shared, this.period, this.cadence := shared, period, cadence;
      lastRequestTime, lastFinalizationTime := now, now;
    }

    method Look() returns (ticket: Option<Ticket>)
      requires Fits(WantedSession(shared.finalized.number, period), period)
      ensures ticket == TicketFor(shared.finalized.number, shared.sessionAuthorities, period)
    {
      var lastFinalizedNumber := shared.finalized.number;
      var currentSession := SessionIdFromBlockNum(lastFinalizedNumber + 1, period);
      var stop := LastBlockOfSession(currentSession, period);
      if currentSession !in shared.sessionAuthorities {
        return None;
      }
      return Some(Ticket(lastFinalizedNumber, stop, shared.sessionAuthorities[currentSession]));
    }

    /** `clientAccepts` is the outcome of the client's `apply_finality`, should it be asked. */
    method HandleJustificationNotification(n: JustificationNotification, t: Ticket, verifier: Verifier,
                                           clientAccepts: bool, now: int)
      returns (done: bool)
      modifies this`lastFinalizationTime, shared`finalized
      ensures done == (Accepts(verifier, t, n) && clientAccepts)
      ensures shared.finalized == if done then AlephData(n.hash, n.number) else old(shared.finalized)
      ensures Times() == if done then old(Times()).(lastFinalization := now) else old(Times())
    {
      done := false;
      if verifier(t.authorities, n.hash, n.signature) {
        if n.number > t.lastFinalized && n.number <= t.stop {
          if clientAccepts {
            shared.finalized := AlephData(n.hash, n.number);
            lastFinalizationTime := now;
            done := true;
          }
        }
      }
    }

    method RequestJustification(number: nat, chance: Chance) returns (request: Option<AlephData>)
      modifies this`lastRequestTime
      ensures request == Requested(old(Times()), cadence, number, chance)
      ensures Times() == if request.Some? then old(Times()).(lastRequest := chance.now) else old(Times())
    {
      request := None;
      if chance.now - lastFinalizationTime > cadence && chance.now - lastRequestTime > 2 * cadence {
        if chance.block.Some? {
          lastRequestTime := chance.now;
          request := Some(AlephData(chance.block.value, number));
        }
      }
    }
  }

  class ConsensusParty {
    const shared: Shared
    const period: Period

    constructor (shared: Shared, period: Period)
      ensures this.shared == shared && this.period == period
    {
      this.shared, this.period := shared, period;
    }

    /** The start of `run_session`; without authorities from the runtime the session is left at once. */
    method EnterSession(session: SessionId, fromRuntime: Option<Authorities>) returns (entered: bool)
      modifies shared`sessionAuthorities
      ensures entered == fromRuntime.Some?
      ensures shared.sessionAuthorities == Entered(old(shared.sessionAuthorities), session, fromRuntime)
    {
      match fromRuntime {
        case None => return false;
        case Some(authorities) =>
          shared.sessionAuthorities := shared.sessionAuthorities[session := authorities];
          return true;
      }
    }

    /** The party waits in a session until the handler wants a later one. */
    method SessionOver(session: SessionId) returns (over: bool)
      requires Fits(session, period)
      ensures over <==> WantedSession(shared.finalized.number, period) > session
    {
      LaterWanted(shared.finalized.number, session, period);
      var lastBlock := LastBlockOfSession(session, period);
      over := shared.finalized.number >= lastBlock;
    }

    method PruneSessionData(below: SessionId)
      modifies shared`sessionAuthorities
      ensures shared.sessionAuthorities ==
              map s | s in old(shared.sessionAuthorities) && s >= below :: old(shared.sessionAuthorities)[s]
    {
      var keys := shared.sessionAuthorities.Keys;
      ghost var before := shared.sessionAuthorities;
      while keys != {}
        invariant keys <= before.Keys
        invariant shared.sessionAuthorities == map s | s in before && (s >= below || s in keys) :: before[s]
      {
        var s :| s in keys;
        keys := keys - {s};
        if s < below {
          shared.sessionAuthorities := shared.sessionAuthorities - {s};
        }
      }
    }

    /** What the loop of `run` does when a session is over. */
    method AfterSession(session: SessionId)
      modifies shared`sessionAuthorities
      ensures shared.sessionAuthorities == Pruned(old(shared.sessionAuthorities), session)
    {
      if session >= 10 && session % 10 == 0 {
        PruneSessionData(session - 10);
      }
    }
  }

  /** The next height lies in a later session exactly when the session's last block is finalized. */
  lemma LaterWanted(finalized: nat, session: SessionId, period: Period)
    requires Fits(session, period)
    ensures WantedSession(finalized, period) > session <==> finalized >= LastBlockOfSession(session, period)
  {
    var n, wanted := finalized + 1, WantedSession(finalized, period);
    DivisionBounds(if n <= U32_MAX then n else U32_MAX, wanted, period);
    if wanted > session {
      Monotone(session + 1, wanted, period);
    } else {
      Monotone(wanted + 1, session + 1, period);
    }
  }
}
