/** One node: the handler and the party, as objects on shared state, step by step in any interleaving. */
module Node {
  import opened BlockTree
  import opened Sessions
  import opened Justification
  import opened Coupling

  /** Where the two tasks stand, and what the handler has done. */
  datatype Tasks = Tasks(party: Party, handler: Handler, log: seq<Finalized>, requests: seq<Request>)

  /** The objects share one state, and are built from one configuration. */
  predicate Wired(c: Config, handler: JustificationHandler, party: ConsensusParty)
  {
    && party.shared == handler.shared
    && handler.period == party.period == c.period && handler.cadence == c.cadence
  }

  function Joint(handler: JustificationHandler, tasks: Tasks): State
    reads handler, handler.shared
  {
    State(handler.shared.finalized, handler.shared.sessionAuthorities, tasks.party, tasks.handler, tasks.log,
          handler.Times(), tasks.requests)
  }

  /** The rest of `run_session` and the loop of `run` around it, when the session is left. */
  method Leave(handler: JustificationHandler, party: ConsensusParty, tasks: Tasks) returns (next: Tasks)
    requires party.shared == handler.shared
    modifies party.shared`sessionAuthorities
    ensures Joint(handler, next) == Left(old(Joint(handler, tasks)))
  {
    party.AfterSession(tasks.party.session);
    next := tasks.(party := Entering(tasks.party.session + 1));
  }

  method StepParty(c: Config, handler: JustificationHandler, party: ConsensusParty, tasks: Tasks, a: Action)
    returns (next: Tasks)
    requires Wired(c, handler, party) && Enabled(c, Joint(handler, tasks), a) && (a.Enter? || a.Skip? || a.Check?)
    modifies party.shared`sessionAuthorities
    ensures Joint(handler, next) == Do(c, old(Joint(handler, tasks)), a)
  {
    var session := tasks.party.session;
    if a.Check? {
      LaterWanted(party.shared.finalized.number, session, c.period);
      var over := party.SessionOver(session);
      next := tasks;
      if over {
        next := Leave(handler, party, tasks);
      }
    } else {
      var entered := party.EnterSession(session, if a.Enter? then Some(c.runtime(session)) else None);
      if entered {
        next := tasks.(party := Running(session));
      } else {
        next := Leave(handler, party, tasks);
      }
    }
  }

  /** The end of the handler's loop body. */
  method Ask(c: Config, handler: JustificationHandler, tasks: Tasks, chance: Chance) returns (next: Tasks)
    requires handler.cadence == c.cadence && tasks.handler.Waiting?
    modifies handler`lastRequestTime
    ensures Joint(handler, next) == Asked(c, old(Joint(handler, tasks)), chance)
  {
    next := tasks.(handler := Looking);
    var request := handler.RequestJustification(tasks.handler.ticket.stop, chance);
    if request.Some? {
      next := next.(requests := tasks.requests + [Request(request.value, chance.now)]);
    }
  }

  method StepHandler(c: Config, handler: JustificationHandler, tasks: Tasks, a: Action) returns (next: Tasks)
    requires handler.period == c.period && handler.cadence == c.cadence
    requires Enabled(c, Joint(handler, tasks), a) && (a.Look? || a.Notify? || a.Timeout?)
    modifies handler, handler.shared`finalized
    ensures Joint(handler, next) == Do(c, old(Joint(handler, tasks)), a)
  {
    next := tasks;
    match a {
      case Look =>
        var ticket := handler.Look();
        if ticket.Some? {
          next := tasks.(handler := Waiting(ticket.value));
        }
      case Notify(n, clientAccepts, now, chance) =>
        var ticket := tasks.handler.ticket;
        var done := handler.HandleJustificationNotification(n, ticket, c.verifier, clientAccepts, now);
        if done {
          next := tasks.(log := tasks.log + [Finalized(n, ticket.authorities, now)]);
        }
        next := Ask(c, handler, next, chance);
      case Timeout(chance) =>
        next := Ask(c, handler, tasks, chance);
    }
  }

  /**
   The two tasks from a finalized block on, for any list of actions: as long as each can happen, the objects go
   through a run of the step system, so all that holds of its runs holds of them.
   */
  method RunNode(c: Config, finalized: AlephData, now: int, actions: seq<Action>)
    returns (states: seq<State>, handled: nat)
    ensures handled <= |actions| && IsRun(c, states, actions[..handled])
    ensures states[0] == Start(c, finalized, now)
    ensures handled < |actions| ==> !Enabled(c, states[handled], actions[handled])
  {
    var shared := new Shared(finalized);
    var handler := new JustificationHandler(shared, c.period, c.cadence, now);
    var party := new ConsensusParty(shared, c.period);
    var tasks := Tasks(Entering(SessionIdFromBlockNum(finalized.number, c.period)), Looking, [], []);
    states, handled := [Joint(handler, tasks)], 0;
    while handled < |actions| && Enabled(c, states[handled], actions[handled])
      invariant handled <= |actions| && fresh(shared) && fresh(handler) && fresh(party)
      invariant handler.shared == shared && Wired(c, handler, party)
      invariant IsRun(c, states, actions[..handled]) && states[0] == Start(c, finalized, now)
      invariant states[handled] == Joint(handler, tasks)
    {
      var a := actions[handled];
      if a.Enter? || a.Skip? || a.Check? {
        tasks := StepParty(c, handler, party, tasks, a);
      } else {
        tasks := StepHandler(c, handler, tasks, a);
      }
      RunGrows(c, states, actions[..handled], a);
      states := states + [Joint(handler, tasks)];
      assert actions[..handled + 1] == actions[..handled] + [a];
      handled := handled + 1;
    }
  }

  lemma RunGrows(c: Config, states: seq<State>, actions: seq<Action>, a: Action)
    requires IsRun(c, states, actions) && Enabled(c, states[|actions|], a)
    ensures IsRun(c, states + [Do(c, states[|actions|], a)], actions + [a])
  {
    var more, longer := states + [Do(c, states[|actions|], a)], actions + [a];
    forall i | 0 <= i < |longer| ensures Enabled(c, more[i], longer[i]) && more[i + 1] == Do(c, more[i], longer[i]) {
      if i < |actions| {
        assert actions[i] in actions;
      }
    }
  }
}
