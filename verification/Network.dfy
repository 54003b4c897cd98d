/**
 The consensus network (`ConsensusNetwork`, network.rs): authentication of peers, delivery to sessions' users and
 sending to nodes. Signatures are a test supplied from outside; where the source goes through a hash map in its own
 order, that order is an input.
 */
module Network {
  import opened Sessions
  import opened Peers
  import opened Lists

  type Keychain = nat
  type Signature = nat
  type Data = nat

  datatype AuthData = AuthData(session: SessionId, peer: PeerId, node: NodeIndex)

  /** Does the signature of this claim verify with a session's keychain? */
  type Verifier = (Keychain, AuthData, Signature) -> bool

  datatype MetaMessage = Authentication(auth: AuthData, signature: Signature)
    | AuthenticationRequest(session: SessionId)

  datatype Message = Meta(message: MetaMessage) | DataMessage(session: SessionId, data: Data)

  datatype Recipient = All | Target(to: nat)

  datatype Command =
    | MetaCommand(message: MetaMessage, recipient: Recipient)
    | DataCommand(session: SessionId, data: Data, recipient: Recipient)

  datatype Status = InProgress | Terminated

  datatype SessionData = SessionData(status: Status, keychain: Keychain, auth: AuthData, signature: Signature)

  datatype Sent = Sent(peer: PeerId, message: Message)

  datatype Delivered = Delivered(session: SessionId, data: Data)

  datatype Net = Net(
    index: Index,
    sessions: map<SessionId, SessionData>,
    commands: seq<Command>,    // the queue between the handlers, the users and `on_command`
    sent: seq<Sent>,           // what went out on the network
    delivered: seq<Delivered>) // what went to the sessions' users

  // ---- The handlers as functions ----

  function Greeting(d: SessionData, p: PeerId): Command
  {
    MetaCommand(Authentication(d.auth, d.signature), Target(p))
  }

  function Greetings(sessions: map<SessionId, SessionData>, order: seq<SessionId>, p: PeerId): seq<Command>
    requires forall s | s in order :: s in sessions
  {
    if order == [] then []
    else Greetings(sessions, order[..|order| - 1], p) + [Greeting(sessions[order[|order| - 1]], p)]
  }

  function ToEach(peers: seq<PeerId>, m: Message): seq<Sent>
  {
    if peers == [] then [] else ToEach(peers[..|peers| - 1], m) + [Sent(peers[|peers| - 1], m)]
  }

  function ToNodes(table: map<NodeIndex, PeerId>, nodes: seq<NodeIndex>, m: Message): seq<Sent>
    requires forall n | n in nodes :: n in table
  {
    if nodes == [] then []
    else ToNodes(table, nodes[..|nodes| - 1], m) + [Sent(table[nodes[|nodes| - 1]], m)]
  }

  predicate Verifies(n: Net, v: Verifier, p: PeerId, auth: AuthData, signature: Signature)
  {
    p == auth.peer && auth.session in n.sessions && v(n.sessions[auth.session].keychain, auth, signature)
  }

  function OnMeta(n: Net, v: Verifier, p: PeerId, m: MetaMessage): Net
  {
    match m
    case Authentication(auth, signature) =>
      if Verifies(n, v, p, auth, signature) then n.(index := Authenticated(n.index, p, auth.session, auth.node)) else n
    case AuthenticationRequest(s) =>
      if s in n.sessions then n.(commands := n.commands + [Greeting(n.sessions[s], p)]) else n
  }

  /** `userListens` tells whether the session's user still holds its end of the channel. */
  function OnData(n: Net, s: SessionId, d: Data, userListens: bool): Net
  {
    if s in n.sessions && n.sessions[s].status == InProgress then
      if userListens then n.(delivered := n.delivered + [Delivered(s, d)])
      else n.(sessions := n.sessions[s := n.sessions[s].(status := Terminated)])
    else n
  }

  function OnMessage(n: Net, v: Verifier, p: PeerId, m: Message, userListens: bool): Net
  {
    match m
    case DataMessage(s, d) =>
      if IsAuthenticated(n.index, p, s) then OnData(n, s, d, userListens)
      else n.(commands := n.commands + [MetaCommand(AuthenticationRequest(s), Target(p))])
    case Meta(meta) => OnMeta(n, v, p, meta)
  }

  function Commanded(n: Net, c: Command, order: seq<nat>): Net
    requires OrderFits(n, c, order)
  {
    match c
    case MetaCommand(m, All) => n.(sent := n.sent + ToEach(order, Meta(m)))
    case MetaCommand(m, Target(p)) => n.(sent := n.sent + [Sent(p, Meta(m))])
    case DataCommand(s, d, All) =>
      assert forall m | m in order :: m in multiset(order);
      n.(sent := n.sent + ToNodes(Table(n.index, s), order, DataMessage(s, d)))
    case DataCommand(s, d, Target(m)) =>
      if m in Table(n.index, s) then n.(sent := n.sent + [Sent(Table(n.index, s)[m], DataMessage(s, d))]) else n
  }

  /** The order is one in which the hash map that a broadcast goes through could list its keys. */
  predicate OrderFits(n: Net, c: Command, order: seq<nat>)
  {
    match c
    case MetaCommand(_, All) => multiset(order) == multiset(n.index.allPeers.Keys)
    case DataCommand(s, _, All) => multiset(order) == multiset(Table(n.index, s).Keys)
    case _ => true
  }

  /** At the end of every turn of the loop terminated sessions are dropped. */
  function Retained(sessions: map<SessionId, SessionData>): map<SessionId, SessionData>
  {
    map s | s in sessions && sessions[s].status == InProgress :: sessions[s]
  }

  // ---- The object ----

  class ConsensusNetwork {
    const peers: Peers
    var sessions: map<SessionId, SessionData>
    var commands: seq<Command>
    var sent: seq<Sent>
    var delivered: seq<Delivered>

    function State(): Net
      reads this, peers
    {
      Net(peers.Ix(), sessions, commands, sent, delivered)
    }

    constructor ()
      ensures State() == Net(NO_PEERS, map[], [], [], []) && fresh(peers)
    {
      peers := new Peers();
      sessions, commands, sent, delivered := map[], [], [], [];
    }

    method AuthenticateTo(d: SessionData, peer: PeerId)
      modifies `commands
      ensures commands == old(commands) + [Greeting(d, peer)]
    {
      commands := commands + [MetaCommand(Authentication(d.auth, d.signature), Target(peer))];
    }

    method OnIncomingAuthentication(auth: AuthData, signature: Signature, verifier: Verifier)
      modifies peers
      ensures State() == OnMeta(old(State()), verifier, auth.peer, Authentication(auth, signature))
    {
      if auth.session in sessions {
        if verifier(sessions[auth.session].keychain, auth, signature) {
          peers.Authenticate(auth.peer, auth.session, auth.node);
        }
      }
    }

    method OnIncomingMeta(message: MetaMessage, peer: PeerId, verifier: Verifier)
      modifies `commands, peers
      ensures State() == OnMeta(old(State()), verifier, peer, message)
    {
      match message {
        case Authentication(auth, signature) =>
          if peer == auth.peer {
            OnIncomingAuthentication(auth, signature, verifier);
          }
        case AuthenticationRequest(session) =>
          if session in sessions {
            AuthenticateTo(sessions[session], peer);
          }
      }
    }

    method OnIncomingData(session: SessionId, data: Data, userListens: bool)
      modifies `sessions, `delivered
      ensures State() == OnData(old(State()), session, data, userListens)
    {
      if session in sessions {
        if sessions[session].status == InProgress {
          if userListens {
            delivered := delivered + [Delivered(session, data)];
          } else {
            sessions := sessions[session := sessions[session].(status := Terminated)];
          }
        }
      }
    }

    method OnIncomingMessage(peer: PeerId, message: Message, verifier: Verifier, userListens: bool)
      modifies this, peers
      ensures State() == OnMessage(old(State()), verifier, peer, message, userListens)
    {
      match message {
        case DataMessage(session, data) =>
          if peer in peers.allPeers && session in peers.allPeers[peer] {
            OnIncomingData(session, data, userListens);
          } else {
            commands := commands + [MetaCommand(AuthenticationRequest(session), Target(peer))];
          }
        case Meta(meta) =>
          OnIncomingMeta(meta, peer, verifier);
      }
    }

    method OnCommand(command: Command, order: seq<nat>)
      requires OrderFits(State(), command, order)
      modifies `sent
      ensures State() == Commanded(old(State()), command, order)
    {
      ghost var before := sent;
      var i := 0;
      match command {
        case MetaCommand(message, Target(peer)) =>
          sent := sent + [Sent(peer, Meta(message))];
        case MetaCommand(message, All) =>
          while i < |order|
            invariant i <= |order| && sent == before + ToEach(order[..i], Meta(message))
          {
            assert order[..i + 1][..i] == order[..i];
            sent := sent + [Sent(order[i], Meta(message))];
            i := i + 1;
          }
          assert order[..i] == order;
        case DataCommand(session, data, Target(node)) =>
          if session in peers.toPeer && node in peers.toPeer[session] {
            sent := sent + [Sent(peers.toPeer[session][node], DataMessage(session, data))];
          }
        case DataCommand(session, data, All) =>
          var table := Table(peers.Ix(), session);
          assert forall m | m in order :: m in multiset(order);
          while i < |order|
            invariant forall m | m in order :: m in table
            invariant i <= |order| && sent == before + ToNodes(table, order[..i], DataMessage(session, data))
          {
            assert order[..i + 1][..i] == order[..i];
            sent := sent + [Sent(table[order[i]], DataMessage(session, data))];
            i := i + 1;
          }
          assert order[..i] == order;
      }
    }

    method OnPeerConnected(peer: PeerId, order: seq<SessionId>)
      requires multiset(order) == multiset(sessions.Keys)
      modifies `commands, peers
      ensures (forall s | s in order :: s in old(sessions)) &&
              State() == Connected(old(State()), peer, order)
    {
      assert forall s | s in order :: s in multiset(order);
      peers.Insert(peer);
      ghost var before := commands;
      var i := 0;
      while i < |order|
        invariant forall s | s in order :: s in sessions
        invariant i <= |order| && commands == before + Greetings(sessions, order[..i], peer)
        modifies `commands
      {
        assert order[..i + 1][..i] == order[..i];
        AuthenticateTo(sessions[order[i]], peer);
        i := i + 1;
      }
      assert order[..i] == order;
    }

    method OnPeerDisconnected(peer: PeerId)
      modifies peers
      ensures State() == Disconnected(old(State()), peer)
    {
      peers.Remove(peer);
    }
  }

  function Connected(n: Net, p: PeerId, order: seq<SessionId>): Net
    requires forall s | s in order :: s in n.sessions
  {
    n.(index := Inserted(n.index, p), commands := n.commands + Greetings(n.sessions, order, p))
  }

  function Disconnected(n: Net, p: PeerId): Net
  {
    n.(index := Removed(n.index, p))
  }

  // ---- Runs ----

  datatype Event =
    | PeerConnected(peer: PeerId, order: seq<nat>)
    | PeerDisconnected(peer: PeerId)
    | Incoming(peer: PeerId, message: Message, userListens: bool)
    | NextCommand(order: seq<nat>)
    | TurnEnds // a turn may handle several incoming messages
    | StartSession(session: SessionId, keychain: Keychain, auth: AuthData, signature: Signature)
    | UserSends(session: SessionId, data: Data, recipient: Recipient)

  predicate Enabled(n: Net, e: Event)
  {
    match e
    case PeerConnected(_, order) => multiset(order) == multiset(n.sessions.Keys)
    case NextCommand(order) => n.commands != [] && OrderFits(n, n.commands[0], order)
    case _ => true
  }

  /**
   One event: a part of a turn of the network's loop, or a user's call that goes to the shared queue and
   session map.
   */
  function Do(n: Net, v: Verifier, e: Event): Net
    requires Enabled(n, e)
  {
    match e
    case PeerConnected(p, order) =>
      assert forall s | s in order :: s in multiset(order);
      Connected(n, p, order)
    case PeerDisconnected(p) => Disconnected(n, p)
    case Incoming(p, m, userListens) => OnMessage(n, v, p, m, userListens)
    case NextCommand(order) =>
      var t := Commanded(n, n.commands[0], order);
      t.(commands := t.commands[1..])
    case TurnEnds => n.(sessions := Retained(n.sessions))
    case StartSession(s, keychain, auth, signature) =>
      n.(sessions := n.sessions[s := SessionData(InProgress, keychain, auth, signature)],
         commands := n.commands + [MetaCommand(Authentication(auth, signature), All)])
    case UserSends(s, d, recipient) =>
      n.(commands := n.commands + [DataCommand(s, d, recipient)])
  }

  datatype Run = Run(states: seq<Net>, events: seq<Event>)

  ghost predicate IsRun(v: Verifier, r: Run) {
    && |r.states| == |r.events| + 1
    && r.states[0] == Net(NO_PEERS, map[], [], [], [])
    && forall i {:trigger r.events[i]} | 0 <= i < |r.events| ::
         Enabled(r.states[i], r.events[i]) && r.states[i + 1] == Do(r.states[i], v, r.events[i])
  }

  /**
   At event `i` the peer of the claim itself presented it, with a signature that verified for a session then known.
   */
  predicate VerifiedAt(v: Verifier, r: Run, i: nat, auth: AuthData)
    requires i < |r.events| && i < |r.states|
  {
    match r.events[i]
    case Incoming(p, Meta(Authentication(a, signature)), _) =>
      var sessions := r.states[i].sessions;
      a == auth && p == auth.peer && auth.session in sessions && v(sessions[auth.session].keychain, auth, signature)
    case _ => false
  }

  /** The claim was verified before event `k`. */
  ghost predicate VerifiedBefore(v: Verifier, r: Run, k: nat, auth: AuthData)
    requires k <= |r.events| < |r.states|
  {
    exists i :: 0 <= i < k && VerifiedAt(v, r, i, auth)
  }

  /** The peer neither connected nor disconnected at event `i`. */
  predicate Stays(r: Run, i: nat, p: PeerId)
    requires i < |r.events|
  {
    match r.events[i]
    case PeerConnected(q, _) => q != p
    case PeerDisconnected(q) => q != p
    case _ => true
  }

  /** The claim was verified before event `k`, and its peer has stayed since. */
  ghost predicate VerifiedSince(v: Verifier, r: Run, k: nat, auth: AuthData)
    requires k <= |r.events| < |r.states|
  {
    exists i :: 0 <= i < k && VerifiedAt(v, r, i, auth) && forall j | i < j < k :: Stays(r, j, auth.peer)
  }

  lemma PointsWasVerified(v: Verifier, r: Run, k: nat, s: SessionId, n: NodeIndex, p: PeerId)
    requires IsRun(v, r) && k <= |r.events| && Points(r.states[k].index, s, n, p)
    ensures VerifiedBefore(v, r, k, AuthData(s, p, n))
  {
    PointsIff(v, r, k, s, n, p);
  }

  lemma BindsWasVerified(v: Verifier, r: Run, k: nat, p: PeerId, s: SessionId, n: NodeIndex)
    requires IsRun(v, r) && k <= |r.events| && Binds(r.states[k].index, p, s, n)
    ensures VerifiedSince(v, r, k, AuthData(s, p, n))
  {
    BindsIff(v, r, k, p, s, n);
  }

  lemma {:induction false} ToNodesIn(table: map<NodeIndex, PeerId>, nodes: seq<NodeIndex>, m: Message)
    requires forall n | n in nodes :: n in table
    ensures forall x | x in ToNodes(table, nodes, m) :: x.message == m && exists n :: n in nodes && table[n] == x.peer
  {
    if nodes != [] {
      ToNodesIn(table, nodes[..|nodes| - 1], m);
    }
  }

  lemma {:induction false} ToEachIn(peers: seq<PeerId>, m: Message)
    ensures forall x | x in ToEach(peers, m) :: x.message == m && x.peer in peers
  {
    if peers != [] {
      ToEachIn(peers[..|peers| - 1], m);
    }
  }

  /** Every data message goes out for some node of its session, to a peer that itself proved to be that node. */
  lemma DataGoesToVerified(v: Verifier, r: Run, k: nat, i: nat) returns (n: NodeIndex)
    requires IsRun(v, r) && k < |r.events|
    requires |r.states[k].sent| <= i < |r.states[k + 1].sent| && r.states[k + 1].sent[i].message.DataMessage?
    ensures r.events[k].NextCommand? && r.states[k].commands != []
    ensures var x := r.states[k + 1].sent[i];
            match r.states[k].commands[0]
            case DataCommand(s, d, recipient) =>
              && x.message == DataMessage(s, d)
              && (recipient.Target? ==> recipient.to == n)
              && VerifiedBefore(v, r, k, AuthData(s, x.peer, n))
            case _ => false
  {
    var before, e, x := r.states[k], r.events[k], r.states[k + 1].sent[i];
    assert e.NextCommand?;
    assert x == r.states[k + 1].sent[|before.sent|..][i - |before.sent|];
    match before.commands[0]
    case DataCommand(s, d, All) =>
      assert forall m | m in e.order :: m in multiset(e.order);
      ToNodesIn(Table(before.index, s), e.order, DataMessage(s, d));
      n :| n in e.order && Table(before.index, s)[n] == x.peer;
      PointsWasVerified(v, r, k, s, n, x.peer);
    case DataCommand(s, d, Target(m)) =>
      n := m;
      PointsWasVerified(v, r, k, s, n, x.peer);
    case MetaCommand(m, All) =>
      ToEachIn(e.order, Meta(m));
    case MetaCommand(m, Target(p)) =>
  }

  /** All that reaches a session's user came from a peer verified for the session since it last connected or left. */
  lemma DeliveredCameFromVerified(v: Verifier, r: Run, k: nat) returns (n: NodeIndex)
    requires IsRun(v, r) && k < |r.events| && r.states[k + 1].delivered != r.states[k].delivered
    ensures match r.events[k]
            case Incoming(p, DataMessage(s, d), _) =>
              && r.states[k + 1].delivered == r.states[k].delivered + [Delivered(s, d)]
              && VerifiedSince(v, r, k, AuthData(s, p, n))
            case _ => false
  {
    var e := r.events[k];
    assert e.Incoming? && e.message.DataMessage?;
    var p, s := e.peer, e.message.session;
    n := r.states[k].index.allPeers[p][s];
    BindsWasVerified(v, r, k, p, s, n);
  }

  // ---- The peer index along a run ----

  /** What an event changes in the peer index. */
  function ChangeOf(n: Net, v: Verifier, e: Event): seq<Change>
  {
    match e
    case PeerConnected(p, _) => [Connect(p)]
    case PeerDisconnected(p) => [Disconnect(p)]
    case Incoming(p, Meta(Authentication(auth, signature)), _) =>
      if Verifies(n, v, p, auth, signature) then [Verify(p, auth.session, auth.node)] else []
    case _ => []
  }

  function ChangesOf(v: Verifier, r: Run, k: nat): seq<Change>
    requires k <= |r.events| < |r.states|
  {
    if k == 0 then [] else ChangesOf(v, r, k - 1) + ChangeOf(r.states[k - 1], v, r.events[k - 1])
  }

  /** One index comes from another by at most one change. */
  ghost predicate Changed(before: Index, more: seq<Change>, after: Index) {
    |more| <= 1 && after == if more == [] then before else Apply(before, more[0])
  }

  /** At event `i` the index changes as `ChangeOf` says. */
  ghost predicate IndexStep(v: Verifier, r: Run, i: nat)
    requires i < |r.events| < |r.states|
  {
    Changed(r.states[i].index, ChangeOf(r.states[i], v, r.events[i]), r.states[i + 1].index)
  }

  lemma EventChangesIndex(n: Net, v: Verifier, e: Event)
    requires Enabled(n, e)
    ensures Changed(n.index, ChangeOf(n, v, e), Do(n, v, e).index)
  {
  }

  lemma IndexSteps(v: Verifier, r: Run)
    requires IsRun(v, r)
    ensures forall i {:trigger IndexStep(v, r, i)} | 0 <= i < |r.events| :: IndexStep(v, r, i)
  {
    forall i | 0 <= i < |r.events| ensures IndexStep(v, r, i) {
      EventChangesIndex(r.states[i], v, r.events[i]);
    }
  }

  lemma AfterAtMostOne(before: Index, changes: seq<Change>, more: seq<Change>, after: Index)
    requires before == AfterChanges(changes) && Changed(before, more, after)
    ensures after == AfterChanges(changes + more)
  {
    if more == [] {
      assert changes + more == changes;
    } else {
      assert more == [more[0]];
      AfterMore(changes, more[0]);
    }
  }

  lemma {:induction false} StepsAddUp(v: Verifier, r: Run, k: nat)
    requires k <= |r.events| < |r.states| && r.states[0].index == NO_PEERS
    requires forall i {:trigger IndexStep(v, r, i)} | 0 <= i < |r.events| :: IndexStep(v, r, i)
    ensures r.states[k].index == AfterChanges(ChangesOf(v, r, k))
  {
    if k > 0 {
      var changes, more := ChangesOf(v, r, k - 1), ChangeOf(r.states[k - 1], v, r.events[k - 1]);
      StepsAddUp(v, r, k - 1);
      assert IndexStep(v, r, k - 1);
      AfterAtMostOne(r.states[k - 1].index, changes, more, r.states[k].index);
      assert ChangesOf(v, r, k) == changes + more;
    }
  }

  lemma IndexFollowsChanges(v: Verifier, r: Run, k: nat)
    requires IsRun(v, r) && k <= |r.events|
    ensures r.states[k].index == AfterChanges(ChangesOf(v, r, k))
  {
    IndexSteps(v, r);
    StepsAddUp(v, r, k);
  }

  // ---- The index, told from the events ----

  /** At event `j` the peer proved, for the session, to be some node. */
  ghost predicate Reclaims(v: Verifier, r: Run, j: nat, p: PeerId, s: SessionId)
    requires j < |r.events| < |r.states|
  {
    exists m :: VerifiedAt(v, r, j, AuthData(s, p, m))
  }

  /** The peer's last proof for the session, since it last connected or left, is to be this node. */
  ghost predicate LastClaim(v: Verifier, r: Run, k: nat, p: PeerId, s: SessionId, n: NodeIndex)
    requires k <= |r.events| < |r.states|
  {
    exists i :: 0 <= i < k && VerifiedAt(v, r, i, AuthData(s, p, n))
                && forall j | i < j < k :: Stays(r, j, p) && !Reclaims(v, r, j, p, s)
  }

  lemma LastClaimStep(v: Verifier, r: Run, k: nat, p: PeerId, s: SessionId, n: NodeIndex)
    requires k < |r.events| < |r.states|
    ensures LastClaim(v, r, k + 1, p, s, n) <==>
            VerifiedAt(v, r, k, AuthData(s, p, n))
            || (LastClaim(v, r, k, p, s, n) && Stays(r, k, p) && !Reclaims(v, r, k, p, s))
  {
    if LastClaim(v, r, k, p, s, n) && Stays(r, k, p) && !Reclaims(v, r, k, p, s) {
      var i :| 0 <= i < k && VerifiedAt(v, r, i, AuthData(s, p, n))
               && forall j | i < j < k :: Stays(r, j, p) && !Reclaims(v, r, j, p, s);
    }
  }

  lemma BindsStep(v: Verifier, r: Run, k: nat, p: PeerId, s: SessionId, n: NodeIndex)
    requires k < |r.events| < |r.states| && IndexStep(v, r, k)
    ensures Binds(r.states[k + 1].index, p, s, n) <==>
            VerifiedAt(v, r, k, AuthData(s, p, n))
            || (Binds(r.states[k].index, p, s, n) && Stays(r, k, p) && !Reclaims(v, r, k, p, s))
  {
    var changes := ChangeOf(r.states[k], v, r.events[k]);
    if changes != [] {
      BindsAfter(r.states[k].index, changes[0], p, s, n);
      if changes[0].Verify? && changes[0].peer == p && changes[0].session == s {
        assert VerifiedAt(v, r, k, AuthData(s, p, changes[0].node));
      }
    }
  }

  /** A peer's record names a node exactly when its last valid proof since it last connected or left does. */
  lemma BindsIff(v: Verifier, r: Run, k: nat, p: PeerId, s: SessionId, n: NodeIndex)
    requires IsRun(v, r) && k <= |r.events|
    ensures Binds(r.states[k].index, p, s, n) <==> LastClaim(v, r, k, p, s, n)
  {
    IndexSteps(v, r);
    BindsFromSteps(v, r, k, p, s, n);
  }

  lemma {:induction false} BindsFromSteps(v: Verifier, r: Run, k: nat, p: PeerId, s: SessionId, n: NodeIndex)
    requires k <= |r.events| < |r.states| && r.states[0].index == NO_PEERS
    requires forall i {:trigger IndexStep(v, r, i)} | 0 <= i < |r.events| :: IndexStep(v, r, i)
    ensures Binds(r.states[k].index, p, s, n) <==> LastClaim(v, r, k, p, s, n)
  {
    if k > 0 {
      assert IndexStep(v, r, k - 1);
      BindsFromSteps(v, r, k - 1, p, s, n);
      BindsStep(v, r, k - 1, p, s, n);
      LastClaimStep(v, r, k - 1, p, s, n);
    }
  }

  /** At event `j` the node's entry in the session's table is replaced or cleared. */
  ghost predicate Displaces(v: Verifier, r: Run, j: nat, s: SessionId, n: NodeIndex)
    requires j < |r.events| < |r.states|
  {
    || (exists q :: VerifiedAt(v, r, j, AuthData(s, q, n)))
    || (r.events[j].PeerDisconnected? && Binds(r.states[j].index, r.events[j].peer, s, n))
  }

  ghost predicate LastHolder(v: Verifier, r: Run, k: nat, s: SessionId, n: NodeIndex, p: PeerId)
    requires k <= |r.events| < |r.states|
  {
    exists i :: 0 <= i < k && VerifiedAt(v, r, i, AuthData(s, p, n)) && forall j | i < j < k ::
      !Displaces(v, r, j, s, n)
  }

  lemma LastHolderStep(v: Verifier, r: Run, k: nat, s: SessionId, n: NodeIndex, p: PeerId)
    requires k < |r.events| < |r.states|
    ensures LastHolder(v, r, k + 1, s, n, p) <==>
            VerifiedAt(v, r, k, AuthData(s, p, n)) || (LastHolder(v, r, k, s, n, p) && !Displaces(v, r, k, s, n))
  {
    if LastHolder(v, r, k, s, n, p) && !Displaces(v, r, k, s, n) {
      var i :| 0 <= i < k && VerifiedAt(v, r, i, AuthData(s, p, n)) && forall j | i < j < k ::
        !Displaces(v, r, j, s, n);
    }
  }

  lemma PointsStep(v: Verifier, r: Run, k: nat, s: SessionId, n: NodeIndex, p: PeerId)
    requires k < |r.events| < |r.states| && IndexStep(v, r, k)
    ensures Points(r.states[k + 1].index, s, n, p) <==>
            VerifiedAt(v, r, k, AuthData(s, p, n)) || (Points(r.states[k].index, s, n, p) && !Displaces(v, r, k, s, n))
  {
    var changes := ChangeOf(r.states[k], v, r.events[k]);
    if changes != [] {
      PointsAfter(r.states[k].index, changes[0], s, n, p);
      if changes[0].Verify? && changes[0].session == s && changes[0].node == n {
        assert VerifiedAt(v, r, k, AuthData(s, changes[0].peer, n));
      }
    }
  }

  lemma {:induction false} PointsFromSteps(v: Verifier, r: Run, k: nat, s: SessionId, n: NodeIndex, p: PeerId)
    requires k <= |r.events| < |r.states| && r.states[0].index == NO_PEERS
    requires forall i {:trigger IndexStep(v, r, i)} | 0 <= i < |r.events| :: IndexStep(v, r, i)
    ensures Points(r.states[k].index, s, n, p) <==> LastHolder(v, r, k, s, n, p)
  {
    if k > 0 {
      assert IndexStep(v, r, k - 1);
      PointsFromSteps(v, r, k - 1, s, n, p);
      PointsStep(v, r, k - 1, s, n, p);
      LastHolderStep(v, r, k - 1, s, n, p);
    }
  }

  /** A node's messages go to the peer that proved last to be that node, until a peer bound to it leaves. */
  lemma PointsIff(v: Verifier, r: Run, k: nat, s: SessionId, n: NodeIndex, p: PeerId)
    requires IsRun(v, r) && k <= |r.events|
    ensures Points(r.states[k].index, s, n, p) <==> LastHolder(v, r, k, s, n, p)
  {
    IndexSteps(v, r);
    PointsFromSteps(v, r, k, s, n, p);
  }

  /** At event `i` the peer connects, or proves to be some node. */
  ghost predicate Appears(v: Verifier, r: Run, i: nat, p: PeerId)
    requires i < |r.events| < |r.states|
  {
    (r.events[i].PeerConnected? && r.events[i].peer == p) || exists s, n :: VerifiedAt(v, r, i, AuthData(s, p, n))
  }

  predicate Leaves(r: Run, i: nat, p: PeerId)
    requires i < |r.events|
  {
    r.events[i].PeerDisconnected? && r.events[i].peer == p
  }

  ghost predicate Present(v: Verifier, r: Run, k: nat, p: PeerId)
    requires k <= |r.events| < |r.states|
  {
    exists i :: 0 <= i < k && Appears(v, r, i, p) && forall j | i < j < k :: !Leaves(r, j, p)
  }

  lemma PresentStep(v: Verifier, r: Run, k: nat, p: PeerId)
    requires k < |r.events| < |r.states|
    ensures Present(v, r, k + 1, p) <==> Appears(v, r, k, p) || (Present(v, r, k, p) && !Leaves(r, k, p))
  {
    if Present(v, r, k, p) && !Leaves(r, k, p) {
      var i :| 0 <= i < k && Appears(v, r, i, p) && forall j | i < j < k :: !Leaves(r, j, p);
    }
  }

  lemma KnownStep(v: Verifier, r: Run, k: nat, p: PeerId)
    requires k < |r.events| < |r.states| && IndexStep(v, r, k)
    ensures p in r.states[k + 1].index.allPeers <==>
            Appears(v, r, k, p) || (p in r.states[k].index.allPeers && !Leaves(r, k, p))
  {
    var changes := ChangeOf(r.states[k], v, r.events[k]);
    if changes != [] {
      KnownAfter(r.states[k].index, changes[0], p);
      if changes[0].Verify? && changes[0].peer == p {
        assert VerifiedAt(v, r, k, AuthData(changes[0].session, p, changes[0].node));
      }
    }
  }

  lemma {:induction false} KnownFromSteps(v: Verifier, r: Run, k: nat, p: PeerId)
    requires k <= |r.events| < |r.states| && r.states[0].index == NO_PEERS
    requires forall i {:trigger IndexStep(v, r, i)} | 0 <= i < |r.events| :: IndexStep(v, r, i)
    ensures p in r.states[k].index.allPeers <==> Present(v, r, k, p)
  {
    if k > 0 {
      assert IndexStep(v, r, k - 1);
      KnownFromSteps(v, r, k - 1, p);
      KnownStep(v, r, k - 1, p);
      PresentStep(v, r, k - 1, p);
    }
  }

  /** A peer is known exactly from when it connects, or proves to be a node, until it leaves. */
  lemma KnownIff(v: Verifier, r: Run, k: nat, p: PeerId)
    requires IsRun(v, r) && k <= |r.events|
    ensures p in r.states[k].index.allPeers <==> Present(v, r, k, p)
  {
    IndexSteps(v, r);
    KnownFromSteps(v, r, k, p);
  }

  // ---- Sessions, told from the events ----

  /** The session is in progress, with what it was started with. */
  predicate Serves(n: Net, s: SessionId, d: SessionData)
  {
    s in n.sessions && n.sessions[s] == d && d.status.InProgress?
  }

  predicate StartedAt(r: Run, i: nat, s: SessionId, d: SessionData)
    requires i < |r.events|
  {
    r.events[i] == StartSession(s, d.keychain, d.auth, d.signature) && d.status.InProgress?
  }

  /** At event `j` data for the session came from an authenticated peer, and its user was gone. */
  ghost predicate LosesUser(r: Run, j: nat, s: SessionId)
    requires j < |r.events| < |r.states|
  {
    match r.events[j]
    case Incoming(p, DataMessage(t, _), userListens) => t == s && !userListens && exists n ::
      Binds(r.states[j].index, p, s, n)
    case _ => false
  }

  ghost predicate RunsSince(r: Run, k: nat, s: SessionId, d: SessionData)
    requires k <= |r.events| < |r.states|
  {
    exists i :: 0 <= i < k && StartedAt(r, i, s, d)
                && forall j | i < j < k ::
                  !LosesUser(r, j, s) && !(r.events[j].StartSession? && r.events[j].session == s)
  }

  lemma AuthenticatedIff(ix: Index, p: PeerId, s: SessionId)
    ensures IsAuthenticated(ix, p, s) <==> exists n :: Binds(ix, p, s, n)
  {
    if IsAuthenticated(ix, p, s) {
      assert Binds(ix, p, s, ix.allPeers[p][s]);
    }
  }

  lemma ProgressStep(v: Verifier, r: Run, k: nat, s: SessionId, d: SessionData)
    requires k < |r.events| < |r.states| && Enabled(r.states[k], r.events[k])
    requires r.states[k + 1] == Do(r.states[k], v, r.events[k])
    ensures Serves(r.states[k + 1], s, d) <==>
            StartedAt(r, k, s, d)
            || (Serves(r.states[k], s, d) && !LosesUser(r, k, s)
              && !(r.events[k].StartSession? && r.events[k].session == s))
  {
    if r.events[k].Incoming? {
      AuthenticatedIff(r.states[k].index, r.events[k].peer, s);
    }
  }

  lemma RunsSinceStep(r: Run, k: nat, s: SessionId, d: SessionData)
    requires k < |r.events| < |r.states|
    ensures RunsSince(r, k + 1, s, d) <==>
            StartedAt(r, k, s, d)
            || (RunsSince(r, k, s, d) && !LosesUser(r, k, s)
              && !(r.events[k].StartSession? && r.events[k].session == s))
  {
    if RunsSince(r, k, s, d) && !LosesUser(r, k, s) && !(r.events[k].StartSession? && r.events[k].session == s) {
      var i :| 0 <= i < k && StartedAt(r, i, s, d)
               && forall j | i < j < k ::
                 !LosesUser(r, j, s) && !(r.events[j].StartSession? && r.events[j].session == s);
    }
  }

  /** A session is in progress exactly from its last start until data for it finds its user gone. */
  lemma {:induction false} InProgressIff(v: Verifier, r: Run, k: nat, s: SessionId, d: SessionData)
    requires IsRun(v, r) && k <= |r.events|
    ensures Serves(r.states[k], s, d) <==> RunsSince(r, k, s, d)
  {
    if k > 0 {
      InProgressIff(v, r, k - 1, s, d);
      assert Enabled(r.states[k - 1], r.events[k - 1]);
      ProgressStep(v, r, k - 1, s, d);
      RunsSinceStep(r, k - 1, s, d);
    }
  }

  // ---- What is delivered, queued and sent ----

  /** Data reaches its session's user exactly when the session is in progress and the peer is bound for it. */
  lemma DeliveredIff(v: Verifier, r: Run, k: nat)
    requires IsRun(v, r) && k < |r.events|
    ensures match r.events[k]
            case Incoming(p, DataMessage(s, d), true) =>
              var reaches := (exists n :: Binds(r.states[k].index, p, s, n)) && exists x ::
                Serves(r.states[k], s, x);
              r.states[k + 1].delivered == r.states[k].delivered + if reaches then [Delivered(s, d)] else []
            case _ => r.states[k + 1].delivered == r.states[k].delivered
  {
    assert Enabled(r.states[k], r.events[k]);
    match r.events[k]
    case Incoming(p, DataMessage(s, d), listens) =>
      AuthenticatedIff(r.states[k].index, p, s);
      if s in r.states[k].sessions {
        assert Serves(r.states[k], s, r.states[k].sessions[s]) <==> r.states[k].sessions[s].status.InProgress?;
      }
    case _ =>
  }

  /**
   A request for a claim is answered to its peer; data from a peer not bound for its session is answered by a
   request.
   */
  lemma Answered(v: Verifier, r: Run, k: nat)
    requires IsRun(v, r) && k < |r.events|
    ensures var n, t := r.states[k], r.states[k + 1];
            match r.events[k]
            case Incoming(p, Meta(AuthenticationRequest(s)), _) =>
              t.commands == n.commands +
                            if s in n.sessions then
                              [MetaCommand(Authentication(n.sessions[s].auth, n.sessions[s].signature), Target(p))]
                            else []
            case Incoming(p, DataMessage(s, d), _) =>
              t.commands == n.commands +
                            if exists m :: Binds(n.index, p, s, m) then []
                            else [MetaCommand(AuthenticationRequest(s), Target(p))]
            case StartSession(_, _, auth, signature) =>
              t.commands == n.commands + [MetaCommand(Authentication(auth, signature), All)]
            case UserSends(s, d, recipient) => t.commands == n.commands + [DataCommand(s, d, recipient)]
            case PeerConnected(_, _) => n.commands <= t.commands
            case NextCommand(_) => n.commands != [] && t.commands == n.commands[1..]
            case _ => t.commands == n.commands
    ensures !r.events[k].NextCommand? ==> r.states[k + 1].sent == r.states[k].sent
  {
    assert Enabled(r.states[k], r.events[k]);
    match r.events[k]
    case Incoming(p, DataMessage(s, d), _) => AuthenticatedIff(r.states[k].index, p, s);
    case _ =>
  }

  /** At the end of a turn the sessions left are those in progress. */
  lemma TurnEndsDrops(v: Verifier, r: Run, k: nat, s: SessionId)
    requires IsRun(v, r) && k < |r.events| && r.events[k].TurnEnds?
    ensures s in r.states[k + 1].sessions <==> exists d :: RunsSince(r, k, s, d)
  {
    assert Enabled(r.states[k], r.events[k]);
    if s in r.states[k].sessions {
      var d := r.states[k].sessions[s];
      InProgressIff(v, r, k, s, d);
      if s in r.states[k + 1].sessions {
        assert Serves(r.states[k], s, d);
      }
    }
    if d :| RunsSince(r, k, s, d) {
      InProgressIff(v, r, k, s, d);
    }
  }

  lemma {:induction false} GreetingsAt(sessions: map<SessionId, SessionData>, order: seq<SessionId>, p: PeerId)
    requires forall s | s in order :: s in sessions
    ensures |Greetings(sessions, order, p)| == |order|
    ensures forall i | 0 <= i < |order| ::
              Greetings(sessions, order, p)[i] ==
              MetaCommand(Authentication(sessions[order[i]].auth, sessions[order[i]].signature), Target(p))
  {
    if order != [] {
      GreetingsAt(sessions, order[..|order| - 1], p);
    }
  }

  /** A peer that connects is sent this node's own claim for every session, each once. */
  lemma GreetedForEach(v: Verifier, r: Run, k: nat)
    requires IsRun(v, r) && k < |r.events| && r.events[k].PeerConnected?
    ensures var n, t, order := r.states[k], r.states[k + 1], r.events[k].order;
            && multiset(order) == multiset(n.sessions.Keys) && (forall s | s in order :: s in n.sessions)
            && |t.commands| == |n.commands| + |order| && n.commands <= t.commands
            && forall i | 0 <= i < |order| ::
                 t.commands[|n.commands| + i] ==
                 MetaCommand(Authentication(n.sessions[order[i]].auth, n.sessions[order[i]].signature),
                   Target(r.events[k].peer))
  {
    var order := r.events[k].order;
    assert Enabled(r.states[k], r.events[k]);
    assert forall s | s in order :: s in multiset(order);
    GreetingsAt(r.states[k].sessions, order, r.events[k].peer);
  }

  lemma {:induction false} ToNodesAt(table: map<NodeIndex, PeerId>, nodes: seq<NodeIndex>, m: Message)
    requires forall n | n in nodes :: n in table
    ensures |ToNodes(table, nodes, m)| == |nodes|
    ensures forall i | 0 <= i < |nodes| :: ToNodes(table, nodes, m)[i] == Sent(table[nodes[i]], m)
  {
    if nodes != [] {
      ToNodesAt(table, nodes[..|nodes| - 1], m);
    }
  }

  lemma {:induction false} ToEachAt(peers: seq<PeerId>, m: Message)
    ensures |ToEach(peers, m)| == |peers|
    ensures forall i | 0 <= i < |peers| :: ToEach(peers, m)[i] == Sent(peers[i], m)
  {
    if peers != [] {
      ToEachAt(peers[..|peers| - 1], m);
    }
  }

  /**
   The next command leaves the queue, and what goes out is: for a data broadcast one message for every node that the
   session's table has, to that node's peer; for data to a node one message if the table has it; for a broadcast of a
   claim one message to every known peer; and for anything else to a peer one message.
   */
  lemma SentForCommand(v: Verifier, r: Run, k: nat)
    requires IsRun(v, r) && k < |r.events| && r.events[k].NextCommand?
    ensures var n, t, order := r.states[k], r.states[k + 1], r.events[k].order;
            && n.commands != [] && t.commands == n.commands[1..] && n.sent <= t.sent
            && var out := t.sent[|n.sent|..];
               match n.commands[0]
               case DataCommand(s, d, All) =>
                 && |out| == |order| && Distinct(order)
                 && (forall m :: m in order <==> exists p :: Points(n.index, s, m, p))
                 && forall i, p | 0 <= i < |order| && Points(n.index, s, order[i], p) ::
                   out[i] == Sent(p, DataMessage(s, d))
               case DataCommand(s, d, Target(m)) =>
                 && (forall p | Points(n.index, s, m, p) :: out == [Sent(p, DataMessage(s, d))])
                 && ((forall p :: !Points(n.index, s, m, p)) ==> out == [])
               case MetaCommand(m, All) =>
                 && |out| == |order| && Distinct(order)
                 && (forall p :: p in order <==> p in n.index.allPeers)
                 && forall i | 0 <= i < |order| :: out[i] == Sent(order[i], Meta(m))
               case MetaCommand(m, Target(p)) => out == [Sent(p, Meta(m))]
  {
    var n, order := r.states[k], r.events[k].order;
    assert Enabled(n, r.events[k]);
    assert n.commands != [] && OrderFits(n, n.commands[0], order);
    match n.commands[0]
    case DataCommand(s, d, All) =>
      var table := Table(n.index, s);
      ListsAll(order, table.Keys);
      ToNodesAt(table, order, DataMessage(s, d));
      forall m ensures m in order <==> exists p :: Points(n.index, s, m, p) {
        if m in table {
          assert Points(n.index, s, m, table[m]);
        }
      }
    case DataCommand(s, d, Target(m)) =>
      if m in Table(n.index, s) {
        assert Points(n.index, s, m, Table(n.index, s)[m]);
      }
    case MetaCommand(m, All) =>
      ListsAll(order, n.index.allPeers.Keys);
      ToEachAt(order, Meta(m));
    case MetaCommand(m, Target(p)) =>
  }

  /** In a well-behaved run a message for a node goes exactly to the peer whose own record names that node. */
  lemma WellBehavedRunIsMirrored(v: Verifier, r: Run, k: nat)
    requires IsRun(v, r) && k <= |r.events| && AllWellBehaved(ChangesOf(v, r, k))
    ensures Mirrored(r.states[k].index)
    ensures forall s, n, p :: Points(r.states[k].index, s, n, p) ==>
              Binds(r.states[k].index, p, s, n) && VerifiedSince(v, r, k, AuthData(s, p, n))
  {
    IndexFollowsChanges(v, r, k);
    MirroredIffWellBehaved(ChangesOf(v, r, k));
    forall s, n, p | Points(r.states[k].index, s, n, p) ensures VerifiedSince(v, r, k, AuthData(s, p, n)) {
      assert Binds(r.states[k].index, p, s, n);
      BindsWasVerified(v, r, k, p, s, n);
    }
  }
}
