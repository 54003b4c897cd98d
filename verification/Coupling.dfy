/**
 A node's two tasks, interleaved step by step: the party, which goes through the sessions and fills the map of
 authorities, and the justification handler, which alone moves the finalized block.
 */
module Coupling {
  import opened BlockTree
  import opened Sessions
  import opened Justification
  import opened Ranges

  /** `runtime` is what the runtime answers for each session, when it answers. */
  datatype Config = Config(period: Period, cadence: nat, verifier: Verifier, runtime: SessionId -> Authorities)

  datatype Party = Entering(session: SessionId) | Running(session: SessionId)

  datatype Handler = Looking | Waiting(ticket: Ticket)

  /** A block the handler finalized, the authorities it was verified under, and when. */
  datatype Finalized = Finalized(notification: JustificationNotification, authorities: Authorities, time: int)

  /** A justification asked for, and when. */
  datatype Request = Request(block: AlephData, time: int)

  datatype State = State(
    finalized: AlephData,
    sessions: SessionMap,
    party: Party,
    handler: Handler,
    log: seq<Finalized>,
    timers: Timers,
    requests: seq<Request>)

  datatype Action =
    | Enter      // run_session reads the authorities and inserts them
    | Skip       // the runtime fails, and run_session returns at once
    | Check      // run_session looks whether the session's last block is finalized
    | Look
    | Notify(notification: JustificationNotification, clientAccepts: bool, now: int, chance: Chance)
    | Timeout(chance: Chance)

  function Start(c: Config, finalized: AlephData, now: int): State
  {
    var first := SessionIdFromBlockNum(finalized.number, c.period);
    State(finalized, map[], Entering(first), Looking, [], Timers(now, now), [])
  }

  /** When an action can happen; the products that `u32` must hold are taken to fit. */
  predicate Enabled(c: Config, s: State, a: Action)
  {
    match a
    case Enter => s.party.Entering? && Fits(s.party.session, c.period)
    case Skip => s.party.Entering? && s.party.session > 0 && Fits(s.party.session, c.period)
    case Check => s.party.Running? && Fits(s.party.session, c.period)
    case Look => s.handler.Looking? && Fits(WantedSession(s.finalized.number, c.period), c.period)
    case Notify(_, _, _, _) => s.handler.Waiting?
    case Timeout(_) => s.handler.Waiting?
  }

  /** The party goes on to the next session. */
  function Left(s: State): State
  {
    s.(sessions := Pruned(s.sessions, s.party.session), party := Entering(s.party.session + 1))
  }

  function Handled(c: Config, s: State, n: JustificationNotification, clientAccepts: bool, now: int): State
    requires s.handler.Waiting?
  {
    if Accepts(c.verifier, s.handler.ticket, n) && clientAccepts then
      s.(finalized := AlephData(n.hash, n.number),
         log := s.log + [Finalized(n, s.handler.ticket.authorities, now)],
         timers := s.timers.(lastFinalization := now))
    else s
  }

  /** The end of the handler's loop body. */
  function Asked(c: Config, s: State, chance: Chance): State
    requires s.handler.Waiting?
  {
    match Requested(s.timers, c.cadence, s.handler.ticket.stop, chance)
    case None => s.(handler := Looking)
    case Some(block) =>
      s.(handler := Looking,
         timers := s.timers.(lastRequest := chance.now),
         requests := s.requests + [Request(block, chance.now)])
  }

  function Do(c: Config, s: State, a: Action): State
    requires Enabled(c, s, a)
  {
    match a
    case Enter =>
      s.(sessions := Entered(s.sessions, s.party.session, Some(c.runtime(s.party.session))),
         party := Running(s.party.session))
    case Skip => Left(s)
    case Check => if s.finalized.number >= LastBlockOfSession(s.party.session, c.period) then Left(s) else s
    case Look =>
      var ticket := TicketFor(s.finalized.number, s.sessions, c.period);
      if ticket.Some? then s.(handler := Waiting(ticket.value)) else s
    case Notify(n, clientAccepts, now, chance) => Asked(c, Handled(c, s, n, clientAccepts, now), chance)
    case Timeout(chance) => Asked(c, s, chance)
  }

  /** A run: its states, and the action between each and the next. */
  ghost predicate IsRun(c: Config, states: seq<State>, actions: seq<Action>) {
    && |states| == |actions| + 1
    && states[0] == Start(c, states[0].finalized, states[0].timers.lastRequest)
    && forall i {:trigger actions[i]} | 0 <= i < |actions| ::
      Enabled(c, states[i], actions[i]) && states[i + 1] == Do(c, states[i], actions[i])
  }

  // ---- Safety: every run, with or without skipped sessions ----

  /** Where in the log the finalized number stood before entry `i`. */
  function Before(start: nat, log: seq<Finalized>, i: nat): nat
    requires i <= |log|
  {
    if i == 0 then start else log[i - 1].notification.number
  }

  /** The entry was verified under its own session's authorities, and lies in that session, above what was finalized. */
  ghost predicate EntryOk(c: Config, start: nat, log: seq<Finalized>, i: nat)
    requires i < |log|
  {
    var n := log[i].notification;
    && c.verifier(log[i].authorities, n.hash, n.signature)
    && log[i].authorities == c.runtime(SessionIdFromBlockNum(n.number, c.period))
    && Before(start, log, i) < n.number
    && WantedSession(Before(start, log, i), c.period) == SessionIdFromBlockNum(n.number, c.period)
    && Fits(SessionIdFromBlockNum(n.number, c.period), c.period)
  }

  ghost predicate LogOk(c: Config, start: nat, log: seq<Finalized>) {
    forall i {:trigger EntryOk(c, start, log, i)} | 0 <= i < |log| :: EntryOk(c, start, log, i)
  }

  lemma LogGrows(c: Config, start: nat, log: seq<Finalized>, e: Finalized)
    ensures LogOk(c, start, log + [e]) <==> LogOk(c, start, log) && EntryOk(c, start, log + [e], |log|)
  {
    forall i | 0 <= i < |log| ensures EntryOk(c, start, log + [e], i) <==> EntryOk(c, start, log, i) {
    }
    if LogOk(c, start, log + [e]) {
      forall i | 0 <= i < |log| ensures EntryOk(c, start, log, i) {
        assert EntryOk(c, start, log + [e], i);
      }
    }
  }

  ghost predicate TicketOk(c: Config, s: State) {
    s.handler.Waiting? ==>
      var wanted := WantedSession(s.finalized.number, c.period);
      && Fits(wanted, c.period)
      && s.handler.ticket == Ticket(s.finalized.number, LastBlockOfSession(wanted, c.period), c.runtime(wanted))
  }

  ghost predicate Safe(c: Config, start: nat, s: State) {
    && (forall k | k in s.sessions :: s.sessions[k] == c.runtime(k))
    && TicketOk(c, s)
    && s.finalized.number == Before(start, s.log, |s.log|)
    && LogOk(c, start, s.log)
  }

  /** A block accepted in the session of the next height lies in that session. */
  lemma AcceptedInWanted(finalized: nat, number: nat, period: Period)
    requires Fits(WantedSession(finalized, period), period)
    requires finalized < number <= LastBlockOfSession(WantedSession(finalized, period), period)
    ensures SessionIdFromBlockNum(number, period) == WantedSession(finalized, period)
  {
    var s := WantedSession(finalized, period);
    SessionRange(finalized + 1, s, period);
    SessionRange(number, s, period);
  }

  lemma StepIsSafe(c: Config, start: nat, s: State, a: Action)
    requires Safe(c, start, s) && Enabled(c, s, a)
    ensures Safe(c, start, Do(c, s, a))
  {
    var t := Do(c, s, a);
    if a.Notify? && t.log != s.log {
      AcceptedInWanted(s.finalized.number, a.notification.number, c.period);
      LogGrows(c, start, s.log, t.log[|s.log|]);
    }
  }

  lemma {:induction false} RunIsSafe(c: Config, states: seq<State>, actions: seq<Action>)
    requires IsRun(c, states, actions)
    ensures Safe(c, states[0].finalized.number, states[|actions|])
  {
    if actions != [] {
      var k := |actions| - 1;
      RunPrefix(c, states, actions, k);
      RunIsSafe(c, states[..k + 1], actions[..k]);
      assert actions[k] in actions;
      StepIsSafe(c, states[0].finalized.number, states[k], actions[k]);
    }
  }

  /** In every run, each finalized block was verified under the authorities of the session its number falls in. */
  lemma FinalizedUnderOwnSession(c: Config, states: seq<State>, actions: seq<Action>, i: nat)
    requires IsRun(c, states, actions) && i < |states[|actions|].log|
    ensures var e := states[|actions|].log[i];
            var own := c.runtime(SessionIdFromBlockNum(e.notification.number, c.period));
            e.authorities == own && c.verifier(own, e.notification.hash, e.notification.signature)
  {
    RunIsSafe(c, states, actions);
    assert EntryOk(c, states[0].finalized.number, states[|actions|].log, i);
  }

  /** Two successive finalizations never straddle a session's last block. */
  lemma NoJump(c: Config, start: nat, log: seq<Finalized>, i: nat, session: SessionId)
    requires i < |log| && EntryOk(c, start, log, i) && Fits(session, c.period)
    requires Before(start, log, i) < LastBlockOfSession(session, c.period)
    ensures LastBlockOfSession(session, c.period) >= log[i].notification.number
  {
    var from, to := Before(start, log, i), log[i].notification.number;
    var own := SessionIdFromBlockNum(to, c.period);
    SessionRange(from + 1, own, c.period);
    SessionRange(to, own, c.period);
    if session < own {
      EarlierFits(session, own, c.period);
    } else {
      EarlierFits(own, session, c.period);
    }
  }

  lemma {:induction false} BoundaryInLog(c: Config, start: nat, log: seq<Finalized>,
                                         session: SessionId) returns (i: nat)
    requires LogOk(c, start, log) && Fits(session, c.period)
    requires start < LastBlockOfSession(session, c.period) <= Before(start, log, |log|)
    ensures i < |log| && log[i].notification.number == LastBlockOfSession(session, c.period)
  {
    var k := |log| - 1;
    var shorter := log[..k];
    assert log == shorter + [log[k]];
    LogGrows(c, start, shorter, log[k]);
    assert Before(start, log, k) == Before(start, shorter, k);
    if LastBlockOfSession(session, c.period) <= Before(start, log, k) {
      i := BoundaryInLog(c, start, shorter, session);
    } else {
      NoJump(c, start, log, k, session);
      i := k;
    }
  }

  /** Every session's last block from the first to the current finalized number was finalized by a step of its own. */
  lemma NoBoundaryJumped(c: Config, states: seq<State>, actions: seq<Action>, session: SessionId) returns (i: nat)
    requires IsRun(c, states, actions) && Fits(session, c.period)
    requires states[0].finalized.number < LastBlockOfSession(session, c.period) <= states[|actions|].finalized.number
    ensures i < |states[|actions|].log|
    ensures states[|actions|].log[i].notification.number == LastBlockOfSession(session, c.period)
  {
    RunIsSafe(c, states, actions);
    i := BoundaryInLog(c, states[0].finalized.number, states[|actions|].log, session);
  }

  lemma {:induction false} LogRises(c: Config, start: nat, log: seq<Finalized>, i: nat, j: nat)
    requires i < j < |log| && LogOk(c, start, log)
    ensures start < log[i].notification.number < log[j].notification.number
    decreases j
  {
    assert EntryOk(c, start, log, j);
    if i < j - 1 {
      LogRises(c, start, log, i, j - 1);
    } else if i > 0 {
      LogRises(c, start, log, i - 1, i);
    } else {
      assert EntryOk(c, start, log, 0);
    }
  }

  /** The finalized number rises strictly with each finalization. */
  lemma FinalizedNumberRises(c: Config, states: seq<State>, actions: seq<Action>, i: nat, j: nat)
    requires IsRun(c, states, actions) && i < j < |states[|actions|].log|
    ensures var log := states[|actions|].log;
            states[0].finalized.number < log[i].notification.number < log[j].notification.number
  {
    RunIsSafe(c, states, actions);
    LogRises(c, states[0].finalized.number, states[|actions|].log, i, j);
  }

  // ---- Requests ----

  function LastAsked(from: int, requests: seq<Request>, i: nat): int
    requires i <= |requests|
  {
    if i == 0 then from else requests[i - 1].time
  }

  /** The request is for the last block of a session, and more than two cadences after the one before. */
  ghost predicate RequestOk(c: Config, from: int, requests: seq<Request>, i: nat)
    requires i < |requests|
  {
    var session := SessionIdFromBlockNum(requests[i].block.number, c.period);
    && Fits(session, c.period) && requests[i].block.number == LastBlockOfSession(session, c.period)
    && requests[i].time - LastAsked(from, requests, i) > 2 * c.cadence
  }

  ghost predicate RequestsOk(c: Config, from: int, s: State) {
    && s.timers.lastRequest == LastAsked(from, s.requests, |s.requests|)
    && forall i {:trigger RequestOk(c, from, s.requests, i)} | 0 <= i < |s.requests| ::
      RequestOk(c, from, s.requests, i)
  }

  lemma AskedKeepsRequests(c: Config, from: int, s: State, chance: Chance)
    requires RequestsOk(c, from, s) && s.handler.Waiting?
    requires exists k: SessionId :: Fits(k, c.period) && s.handler.ticket.stop == LastBlockOfSession(k, c.period)
    ensures RequestsOk(c, from, Asked(c, s, chance))
  {
    var k: SessionId :| Fits(k, c.period) && s.handler.ticket.stop == LastBlockOfSession(k, c.period);
    LastBlockRoundTrip(k, c.period);
    var t := Asked(c, s, chance);
    forall i | 0 <= i < |t.requests| ensures RequestOk(c, from, t.requests, i) {
      if i < |s.requests| {
        assert RequestOk(c, from, s.requests, i);
      }
    }
  }

  lemma {:induction false} RequestsAreSpaced(c: Config, states: seq<State>, actions: seq<Action>)
    requires IsRun(c, states, actions)
    ensures RequestsOk(c, states[0].timers.lastRequest, states[|actions|])
  {
    if actions != [] {
      var k, from := |actions| - 1, states[0].timers.lastRequest;
      RunPrefix(c, states, actions, k);
      RequestsAreSpaced(c, states[..k + 1], actions[..k]);
      RunIsSafe(c, states[..k + 1], actions[..k]);
      assert actions[k] in actions;
      match actions[k]
      case Notify(n, clientAccepts, now, chance) =>
        AskedKeepsRequests(c, from, Handled(c, states[k], n, clientAccepts, now), chance);
      case Timeout(chance) =>
        AskedKeepsRequests(c, from, states[k], chance);
      case _ =>
    }
  }

  function LastFinalized(from: int, log: seq<Finalized>): int
  {
    if log == [] then from else log[|log| - 1].time
  }

  lemma {:induction false} TimersFollow(c: Config, states: seq<State>, actions: seq<Action>)
    requires IsRun(c, states, actions)
    ensures var s, from := states[|actions|], states[0].timers.lastRequest;
            s.timers == Timers(LastAsked(from, s.requests, |s.requests|), LastFinalized(from, s.log))
  {
    if actions != [] {
      var k := |actions| - 1;
      RunPrefix(c, states, actions, k);
      TimersFollow(c, states[..k + 1], actions[..k]);
      assert actions[k] in actions;
    }
  }

  /**
   At the end of the handler's turn, be it a notification's or a timeout's, a justification for the wanted session's
   last block is asked for exactly when the client has the block, the last finalization is more than a cadence ago
   and the last request more than two.
   */
  lemma AsksIff(c: Config, states: seq<State>, actions: seq<Action>, k: nat)
    requires IsRun(c, states, actions) && k < |actions| && (actions[k].Notify? || actions[k].Timeout?)
    ensures var s, t, chance, from := states[k], states[k + 1], actions[k].chance, states[0].timers.lastRequest;
            var wanted := WantedSession(s.finalized.number, c.period);
            && Fits(wanted, c.period)
            && t.requests == s.requests +
                             if chance.block.Some? && chance.now - LastFinalized(from, t.log) > c.cadence
                                && chance.now - LastAsked(from, s.requests, |s.requests|) > 2 * c.cadence then
                               [Request(AlephData(chance.block.value, LastBlockOfSession(wanted, c.period)),
                                 chance.now)]
                             else []
  {
    RunPrefix(c, states, actions, k);
    TimersFollow(c, states[..k + 1], actions[..k]);
    RunIsSafe(c, states[..k + 1], actions[..k]);
    assert Enabled(c, states[k], actions[k]);
  }

  // ---- What the handler accepts ----

  /**
   A notification is finalized exactly when it verifies under the authorities of the session that the next height lies
   in, its number is above the finalized one and not above that session's last block, and the client accepts it. After
   the last block the handler wants the next session.
   */
  lemma FinalizesIff(c: Config, states: seq<State>, actions: seq<Action>, k: nat)
    requires IsRun(c, states, actions) && k < |actions| && actions[k].Notify?
    ensures var s, t, n := states[k], states[k + 1], actions[k].notification;
            var wanted := WantedSession(s.finalized.number, c.period);
            && Fits(wanted, c.period)
            && var accepts := c.verifier(c.runtime(wanted), n.hash, n.signature) && actions[k].clientAccepts
                              && s.finalized.number < n.number <= LastBlockOfSession(wanted, c.period);
               && t.finalized == (if accepts then AlephData(n.hash, n.number) else s.finalized)
               && t.log == s.log + (if accepts then [Finalized(n, c.runtime(wanted), actions[k].now)] else [])
               && (accepts && n.number == LastBlockOfSession(wanted, c.period) ==>
                     WantedSession(t.finalized.number, c.period) == wanted + 1)
  {
    var s, wanted := states[k], WantedSession(states[k].finalized.number, c.period);
    RunPrefix(c, states, actions, k);
    RunIsSafe(c, states[..k + 1], actions[..k]);
    assert Enabled(c, s, actions[k]);
    assert TicketOk(c, s);
    LastBlockRoundTrip(wanted, c.period);
  }

  /** Nothing but a notification changes the finalized block. */
  lemma OnlyNotifyFinalizes(c: Config, states: seq<State>, actions: seq<Action>, k: nat)
    requires IsRun(c, states, actions) && k < |actions| && !actions[k].Notify?
    ensures states[k + 1].finalized == states[k].finalized && states[k + 1].log == states[k].log
  {
    assert Enabled(c, states[k], actions[k]);
  }

  // ---- Coupling: runs in which the runtime never fails ----

  /** The lowest session whose authorities pruning leaves while session `k` runs. */
  function Low(k: SessionId): SessionId
  {
    if k <= 10 then 0 else (k - 1) / 10 * 10 - 10
  }

  function Max(a: nat, b: nat): nat { if a < b then b else a }

  /** The map holds the sessions from `low` to `high`, and no other. */
  ghost predicate Holds(sessions: SessionMap, low: SessionId, high: SessionId) {
    forall k: SessionId :: k in sessions <==> low <= k <= high
  }

  /** The finalized number is at the end of the session before `k`, or in session `k`. */
  ghost predicate In(c: Config, finalized: nat, k: SessionId) {
    Fits(k, c.period) && k * c.period <= finalized + 1 && finalized <= LastBlockOfSession(k, c.period)
  }

  /** `first` is the session the party started with. */
  ghost predicate Coupled(c: Config, first: SessionId, s: State) {
    && TicketOk(c, s)
    && match s.party
       case Entering(k) =>
         && s.handler.Looking?
         && (if k == first then s.sessions == map[] && (Fits(k, c.period) ==> In(c, s.finalized.number, k))
             else
               && first < k && Fits(k - 1, c.period)
               && s.finalized.number == LastBlockOfSession(k - 1, c.period)
               && Holds(s.sessions, Max(first, Low(k)), k - 1))
       case Running(k) =>
         && first <= k && In(c, s.finalized.number, k)
         && Holds(s.sessions, Max(first, Low(k)), k)
         && (s.handler.Waiting? ==> s.finalized.number < LastBlockOfSession(k, c.period))
  }

  /** Within session `k`, the handler wants `k` until its last block is finalized, and `k + 1` from then on. */
  lemma WantedIn(c: Config, finalized: nat, k: SessionId)
    requires In(c, finalized, k)
    ensures WantedSession(finalized, c.period) ==
            if finalized < LastBlockOfSession(k, c.period) then k else k + 1
  {
    if finalized < LastBlockOfSession(k, c.period) {
      SessionRange(finalized + 1, k, c.period);
    } else {
      LastBlockRoundTrip(k, c.period);
    }
  }

  lemma PrunedHolds(sessions: SessionMap, first: SessionId, k: SessionId)
    requires first <= k && Holds(sessions, Max(first, Low(k)), k)
    ensures Holds(Pruned(sessions, k), Max(first, Low(k + 1)), k)
  {
    if k > 10 {
      var q, r := (k - 1) / 10, (k - 1) % 10;
      assert k - 1 == 10 * q + r;
      assert k % 10 == 0 <==> r == 9;
    }
  }

  lemma EnterKeepsCoupled(c: Config, first: SessionId, s: State)
    requires Coupled(c, first, s) && Enabled(c, s, Enter)
    ensures Coupled(c, first, Do(c, s, Enter))
  {
    var k := s.party.session;
    if k == first {
      assert Max(first, Low(k)) == k;
    } else {
      EarlierFits(k - 1, k, c.period);
      assert k * c.period == (k - 1 + 1) * c.period;
    }
  }

  lemma CheckKeepsCoupled(c: Config, first: SessionId, s: State)
    requires Coupled(c, first, s) && Enabled(c, s, Check)
    ensures Coupled(c, first, Do(c, s, Check))
  {
    if s.finalized.number >= LastBlockOfSession(s.party.session, c.period) {
      PrunedHolds(s.sessions, first, s.party.session);
    }
  }

  lemma LookKeepsCoupled(c: Config, first: SessionId, s: State)
    requires Coupled(c, first, s) && Enabled(c, s, Look)
    requires forall k | k in s.sessions :: s.sessions[k] == c.runtime(k)
    ensures Coupled(c, first, Do(c, s, Look))
  {
    match s.party
    case Entering(k) =>
      if k > first {
        LastBlockRoundTrip(k - 1, c.period);
      }
    case Running(k) =>
      WantedIn(c, s.finalized.number, k);
  }

  lemma NotifyKeepsCoupled(c: Config, first: SessionId, s: State, a: Action)
    requires Coupled(c, first, s) && Enabled(c, s, a) && a.Notify?
    ensures Coupled(c, first, Do(c, s, a))
  {
    WantedIn(c, s.finalized.number, s.party.session);
  }

  lemma StepKeepsCoupled(c: Config, first: SessionId, s: State, a: Action)
    requires Coupled(c, first, s) && Enabled(c, s, a) && !a.Skip?
    requires forall k | k in s.sessions :: s.sessions[k] == c.runtime(k)
    ensures Coupled(c, first, Do(c, s, a))
  {
    match a
    case Enter => EnterKeepsCoupled(c, first, s);
    case Check => CheckKeepsCoupled(c, first, s);
    case Look => LookKeepsCoupled(c, first, s);
    case Notify(_, _, _, _) => NotifyKeepsCoupled(c, first, s, a);
    case Timeout(_) =>
  }

  lemma StartIsCoupled(c: Config, finalized: AlephData, now: int)
    ensures Coupled(c, SessionIdFromBlockNum(finalized.number, c.period), Start(c, finalized, now))
    ensures Safe(c, finalized.number, Start(c, finalized, now))
  {
    var first := SessionIdFromBlockNum(finalized.number, c.period);
    if Fits(first, c.period) {
      SessionRange(finalized.number, first, c.period);
    }
  }

  lemma {:induction false} RunIsCoupled(c: Config, states: seq<State>, actions: seq<Action>)
    requires IsRun(c, states, actions) && Skip !in actions
    ensures Coupled(c, states[0].party.session, states[|actions|])
  {
    var first := states[0].party.session;
    if actions == [] {
      StartIsCoupled(c, states[0].finalized, states[0].timers.lastRequest);
    } else {
      var k := |actions| - 1;
      RunPrefix(c, states, actions, k);
      RunIsCoupled(c, states[..k + 1], actions[..k]);
      RunIsSafe(c, states[..k + 1], actions[..k]);
      assert actions[k] in actions;
      StepKeepsCoupled(c, first, states[k], actions[k]);
    }
  }

  lemma RunPrefix(c: Config, states: seq<State>, actions: seq<Action>, k: nat)
    requires IsRun(c, states, actions) && k <= |actions|
    ensures IsRun(c, states[..k + 1], actions[..k])
  {
    var before := actions[..k];
    forall i | 0 <= i < k
      ensures Enabled(c, states[..k + 1][i], before[i])
      ensures states[..k + 1][i + 1] == Do(c, states[..k + 1][i], before[i])
    {
      assert before[i] == actions[i];
    }
  }

  /** The session whose authorities were inserted last. */
  function Latest(s: State): int
  {
    match s.party
    case Running(k) => k
    case Entering(k) => k - 1
  }

  /** From one insertion to the next the finalized number stays at or in the session. */
  lemma LatestIn(c: Config, first: SessionId, s: State, k: SessionId)
    requires Coupled(c, first, s) && Latest(s) == k >= first
    ensures In(c, s.finalized.number, k)
  {
    if s.party.Entering? {
      assert k * c.period <= (k + 1) * c.period;
    }
  }

  /**
   From the insertion of session `k`'s authorities until the next insertion: the finalized number lies between the
   last blocks of sessions `k - 1` and `k`; the handler wants `k` or `k + 1`, and when it wants `k` its authorities
   are there, pruning or not; and the map holds only sessions from `k - 20` to `k`, at most 21 of them.
   */
  lemma TwoTaskCoupling(c: Config, states: seq<State>, actions: seq<Action>, k: SessionId)
    requires IsRun(c, states, actions) && Skip !in actions
    requires Latest(states[|actions|]) == k >= states[0].party.session
    ensures var s := states[|actions|];
            && Fits(k, c.period)
            && k * c.period - 1 <= s.finalized.number <= LastBlockOfSession(k, c.period)
            && WantedSession(s.finalized.number, c.period) ==
               (if s.finalized.number < LastBlockOfSession(k, c.period) then k else k + 1)
            && k in s.sessions && s.sessions[k] == c.runtime(k)
            && (forall n | n in s.sessions :: k - 20 <= n <= k)
            && |s.sessions| <= 21
  {
    RunIsCoupled(c, states, actions);
    RunIsSafe(c, states, actions);
    var s, first := states[|actions|], states[0].party.session;
    LatestIn(c, first, s, k);
    WantedIn(c, s.finalized.number, k);
    LowIsClose(k);
    LowIsClose(k + 1);
    IntervalBound(s.sessions.Keys, if k >= 20 then k - 20 else 0, 21);
  }

  /**
   When the handler looks, it goes on exactly if the party is in the session of the next height; then with the
   finalized number, that session's last block and its authorities.
   */
  lemma LooksIff(c: Config, states: seq<State>, actions: seq<Action>, k: nat)
    requires IsRun(c, states, actions) && Skip !in actions && k < |actions| && actions[k].Look?
    ensures var s, t := states[k], states[k + 1];
            var wanted := WantedSession(s.finalized.number, c.period);
            && Fits(wanted, c.period)
            && t == s.(handler :=
                 if s.party == Running(wanted) then
                   Waiting(Ticket(s.finalized.number, LastBlockOfSession(wanted, c.period), c.runtime(wanted)))
                 else Looking)
  {
    var s := states[k];
    RunPrefix(c, states, actions, k);
    RunIsCoupled(c, states[..k + 1], actions[..k]);
    RunIsSafe(c, states[..k + 1], actions[..k]);
    assert Enabled(c, s, Look);
    match s.party
    case Entering(j) =>
      if j > states[0].party.session {
        LastBlockRoundTrip(j - 1, c.period);
      }
    case Running(j) =>
      WantedIn(c, s.finalized.number, j);
  }

  /** The party leaves a session exactly when its last block is finalized. */
  lemma LeavesIff(c: Config, states: seq<State>, actions: seq<Action>, k: nat)
    requires IsRun(c, states, actions) && k < |actions| && actions[k].Check?
    ensures var s, t := states[k], states[k + 1];
            && s.party.Running? && Fits(s.party.session, c.period)
            && t.party == (if s.finalized.number >= LastBlockOfSession(s.party.session, c.period) then
                             Entering(s.party.session + 1) else s.party)
            && (t.party == s.party ==> t == s)
  {
    assert Enabled(c, states[k], Check);
  }

  /** The actions can happen one after the other. */
  predicate CanDo(c: Config, s: State, actions: seq<Action>)
    decreases |actions|
  {
    actions != [] ==> Enabled(c, s, actions[0]) && CanDo(c, Do(c, s, actions[0]), actions[1..])
  }

  function DoAll(c: Config, s: State, actions: seq<Action>): State
    requires CanDo(c, s, actions)
    decreases |actions|
  {
    if actions == [] then s else DoAll(c, Do(c, s, actions[0]), actions[1..])
  }

  lemma DoFirst(c: Config, s: State, a: Action, t: State, rest: seq<Action>)
    requires Enabled(c, s, a) && t == Do(c, s, a) && CanDo(c, t, rest)
    ensures CanDo(c, s, [a] + rest) && DoAll(c, s, [a] + rest) == DoAll(c, t, rest)
  {
    assert ([a] + rest)[1..] == rest;
  }

  lemma LookInSession(c: Config, first: SessionId, s: State, k: SessionId)
    requires Coupled(c, first, s) && s.party == Running(k) && s.handler.Looking?
    requires k in s.sessions ==> s.sessions[k] == c.runtime(k)
    requires s.finalized.number < LastBlockOfSession(k, c.period)
    ensures Enabled(c, s, Look)
    ensures Do(c, s, Look) ==
            s.(handler := Waiting(Ticket(s.finalized.number, LastBlockOfSession(k, c.period), c.runtime(k))))
  {
    WantedIn(c, s.finalized.number, k);
  }

  lemma NotifyTheLast(c: Config, s: State, k: SessionId, a: Action)
    requires Fits(k, c.period) && a.Notify? && a.clientAccepts && s.finalized.number < LastBlockOfSession(k, c.period)
    requires s.handler == Waiting(Ticket(s.finalized.number, LastBlockOfSession(k, c.period), c.runtime(k)))
    requires a.notification.number == LastBlockOfSession(k, c.period)
    requires c.verifier(c.runtime(k), a.notification.hash, a.notification.signature)
    ensures var t := Do(c, s, a);
            && Enabled(c, s, a) && t.party == s.party && t.sessions == s.sessions
            && t.finalized == AlephData(a.notification.hash, a.notification.number)
  {
  }

  lemma CheckAndEnter(c: Config, s: State, k: SessionId)
    requires Fits(k, c.period) && Fits(k + 1, c.period)
    requires s.party == Running(k) && s.finalized.number == LastBlockOfSession(k, c.period)
    ensures CanDo(c, s, [Check] + ([Enter] + []))
    ensures var t := DoAll(c, s, [Check] + ([Enter] + []));
            t.party == Running(k + 1) && t.finalized == s.finalized
            && k + 1 in t.sessions && t.sessions[k + 1] == c.runtime(k + 1)
  {
    var left := Do(c, s, Check);
    DoFirst(c, left, Enter, Do(c, left, Enter), []);
    DoFirst(c, s, Check, left, [Enter] + []);
  }

  /** A verified notification of the session's last block takes a coupled node into the next session. */
  lemma GoesOn(c: Config, first: SessionId, s: State, n: JustificationNotification, now: int, chance: Chance)
    requires Coupled(c, first, s) && (forall k | k in s.sessions :: s.sessions[k] == c.runtime(k))
    requires s.party.Running? && s.handler.Looking? && Fits(s.party.session + 1, c.period)
    requires s.finalized.number < n.number == LastBlockOfSession(s.party.session, c.period)
    requires c.verifier(c.runtime(s.party.session), n.hash, n.signature)
    ensures var actions := [Look, Notify(n, true, now, chance), Check, Enter];
            && CanDo(c, s, actions)
            && var t := DoAll(c, s, actions);
               && t.party == Running(s.party.session + 1) && t.finalized == AlephData(n.hash, n.number)
               && s.party.session + 1 in t.sessions
               && t.sessions[s.party.session + 1] == c.runtime(s.party.session + 1)
  {
    var k, notify, rest := s.party.session, Notify(n, true, now, chance), [Check] + ([Enter] + []);
    LookInSession(c, first, s, k);
    var looked := Do(c, s, Look);
    NotifyTheLast(c, looked, k, notify);
    var notified := Do(c, looked, notify);
    CheckAndEnter(c, notified, k);
    DoFirst(c, looked, notify, notified, rest);
    DoFirst(c, s, Look, looked, [notify] + rest);
    assert [Look] + ([notify] + rest) == [Look, notify, Check, Enter];
  }

  /** So no reachable node is stuck in a session while its last block can still be certified. */
  lemma RunGoesOn(c: Config, states: seq<State>, actions: seq<Action>, n: JustificationNotification, now: int,
    chance: Chance)
    requires IsRun(c, states, actions) && Skip !in actions
    requires var s := states[|actions|];
             && s.party.Running? && s.handler.Looking? && Fits(s.party.session + 1, c.period)
             && s.finalized.number < n.number == LastBlockOfSession(s.party.session, c.period)
             && c.verifier(c.runtime(s.party.session), n.hash, n.signature)
    ensures var s, more := states[|actions|], [Look, Notify(n, true, now, chance), Check, Enter];
            CanDo(c, s, more) && DoAll(c, s, more).party == Running(s.party.session + 1)
            && DoAll(c, s, more).finalized == AlephData(n.hash, n.number)
  {
    RunIsCoupled(c, states, actions);
    RunIsSafe(c, states, actions);
    GoesOn(c, states[0].party.session, states[|actions|], n, now, chance);
  }

  lemma LowIsClose(k: SessionId)
    ensures k - 20 <= Low(k) && (k > 0 ==> Low(k) < k) && (k > 0 ==> k - 1 - 20 <= Low(k))
  {
    if k > 10 {
      var q, r := (k - 1) / 10, (k - 1) % 10;
      assert k - 1 == 10 * q + r;
    }
  }

  // ---- A failing runtime ----

  /** The handler wants a session that the party has passed by without inserting its authorities. */
  ghost predicate Stalled(c: Config, s: State, missing: SessionId) {
    && s.party.session > missing && missing !in s.sessions
    && WantedSession(s.finalized.number, c.period) == missing && s.handler.Looking?
  }

  /** What a skipped session does: if any of its blocks is still to be finalized, the node stalls; otherwise nothing. */
  lemma SkipStalls(c: Config, first: SessionId, s: State)
    requires Coupled(c, first, s) && Enabled(c, s, Skip)
    ensures var k := s.party.session;
            if s.finalized.number < LastBlockOfSession(k, c.period) then Stalled(c, Do(c, s, Skip), k)
            else k == first && Coupled(c, k + 1, Do(c, s, Skip))
  {
    var k := s.party.session;
    if k > first {
      EarlierFits(k - 1, k, c.period);
      assert In(c, s.finalized.number, k) by {
        assert k * c.period == (k - 1 + 1) * c.period;
      }
    }
    WantedIn(c, s.finalized.number, k);
    assert (k + 1) * c.period == k * c.period + c.period;
  }

  /** And a stalled node does not finalize again, whatever its two tasks do: only a new start can help it. */
  lemma {:induction false} StalledForEver(c: Config, s: State, actions: seq<Action>, states: seq<State>,
                                          missing: SessionId)
    requires |states| == |actions| + 1 && states[0] == s && Stalled(c, s, missing)
    requires forall i {:trigger actions[i]} | 0 <= i < |actions| ::
               Enabled(c, states[i], actions[i]) && states[i + 1] == Do(c, states[i], actions[i])
    ensures Stalled(c, states[|actions|], missing) && states[|actions|].finalized == s.finalized
  {
    if actions != [] {
      var k := |actions| - 1;
      var before := actions[..k];
      forall i | 0 <= i < k
        ensures Enabled(c, states[..k + 1][i], before[i])
        ensures states[..k + 1][i + 1] == Do(c, states[..k + 1][i], before[i])
      {
        assert before[i] == actions[i];
      }
      StalledForEver(c, s, before, states[..k + 1], missing);
      assert actions[k] in actions;
    }
  }
}
