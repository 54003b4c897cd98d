/**
 Many nodes through many sessions. Each honest node runs its own party and handler, step by step as in `Coupling`,
 and a reader of each session's list as in `OneBranch`,
   for as long as that reader likes. Nothing ties a signature to a session: a
 multisignature verifies under a list of authorities once the honest members of a quorum have signed the hash, in
 whatever session they did.
 */
module ManySessions {
  import opened BlockTree
  import opened Finalization
  import opened Sessions
  import opened SessionChain
  import opened PartialViews
  import opened Justification
  import NaiveStore
  import Availability
  import OneBranch
  import Coupling

  type NodeId = OneBranch.NodeId
  type Ordered = map<SessionId, seq<AlephData>>

  /** `local` is what all nodes share of the two tasks: period, verification, and the authorities of each session. */
  datatype Config = Config(
    tree: Headers,
    genesis: Hash,
    honest: set<NodeId>,
    quorums: Authorities -> set<set<NodeId>>,
    local: Coupling.Config)

  ghost predicate ConfigOk(c: Config) {
    && Closed(c.tree) && c.genesis in c.tree && c.tree[c.genesis].number == 0
    && forall k: SessionId, q | q in c.quorums(c.local.runtime(k)) :: q * c.honest != {}
  }

  // ---- The trunk: what the lists of all sessions lead to ----

  function ListOf(ordered: Ordered, k: SessionId): seq<AlephData>
  {
    if k in ordered then ordered[k] else []
  }

  /** The number of the session's last block. */
  function End(c: Config, k: SessionId): nat
  {
    (k + 1) * c.local.period - 1
  }

  lemma Ends(c: Config, k: SessionId)
    ensures End(c, k) + 1 == (k + 1) * c.local.period && k * c.local.period <= End(c, k)
    ensures k > 0 ==> End(c, k - 1) + 1 == k * c.local.period && End(c, k - 1) < End(c, k)
  {
    assert (k + 1) * c.local.period == k * c.local.period + c.local.period;
  }

  /** Where session `k` starts: at the genesis, and then where the session before has come to. */
  ghost function Root(c: Config, ordered: Ordered, k: SessionId): (r: Hash)
    requires ConfigOk(c)
    ensures r in c.tree && c.tree[r].number <= k * c.local.period
    ensures k > 0 ==> c.tree[r].number <= End(c, k - 1)
  {
    if k == 0 then c.genesis
    else
      var from, items := Root(c, ordered, k - 1), ListOf(ordered, k - 1);
      TipDescends(c.tree, End(c, k - 1), from, items, 0);
      Ends(c, k);
      Ends(c, k - 1);
      Tip(c.tree, End(c, k - 1), from, items)
  }

  /** Session `k` on its own. */
  ghost function Session(c: Config, ordered: Ordered, k: SessionId): (o: OneBranch.Config)
    requires ConfigOk(c)
    ensures OneBranch.ConfigOk(o)
  {
    Ends(c, k);
    OneBranch.Config(c.tree, Root(c, ordered, k), End(c, k), c.honest, {})
  }

  /** All sessions before `k` have come to their last blocks. */
  ghost predicate Reached(c: Config, ordered: Ordered, k: SessionId)
    requires ConfigOk(c)
  {
    k > 0 ==> Reached(c, ordered, k - 1) && c.tree[Root(c, ordered, k)].number == End(c, k - 1)
  }

  ghost predicate OnTrunk(c: Config, ordered: Ordered, k: SessionId, h: Hash)
    requires ConfigOk(c)
  {
    Reached(c, ordered, k) && OneBranch.Good(Session(c, ordered, k), ListOf(ordered, k), h)
  }

  ghost predicate Trunk(c: Config, ordered: Ordered, h: Hash)
    requires ConfigOk(c)
  {
    exists k: SessionId {:trigger OnTrunk(c, ordered, k, h)} :: OnTrunk(c, ordered, k, h)
  }

  lemma RootOnTrunk(c: Config, ordered: Ordered, k: SessionId)
    requires ConfigOk(c) && Reached(c, ordered, k)
    ensures OnTrunk(c, ordered, k, Root(c, ordered, k))
  {
    OneBranch.RootIsGood(Session(c, ordered, k), ListOf(ordered, k));
  }

  lemma {:induction false} RootsDescend(c: Config, ordered: Ordered, i: SessionId, j: SessionId)
    requires ConfigOk(c) && i <= j
    ensures Descends(c.tree, Root(c, ordered, i), Root(c, ordered, j))
  {
    if i < j {
      var from, items := Root(c, ordered, j - 1), ListOf(ordered, j - 1);
      RootsDescend(c, ordered, i, j - 1);
      TipDescends(c.tree, End(c, j - 1), from, items, |items|);
      assert items[..|items|] == items;
      DescendsTransitive(c.tree, Root(c, ordered, i), from, Root(c, ordered, j));
    }
  }

  /** Across sessions too, the trunk is one branch. */
  lemma TrunkIsOrdered(c: Config, ordered: Ordered, i: SessionId, j: SessionId, a: Hash, b: Hash)
    requires ConfigOk(c) && i <= j && OnTrunk(c, ordered, i, a) && OnTrunk(c, ordered, j, b)
    ensures Descends(c.tree, a, b) || Descends(c.tree, b, a)
  {
    var next := Root(c, ordered, i + 1);
    if i == j {
      if c.tree[a].number <= c.tree[b].number {
        AncestorsAreOrdered(c.tree, a, b, next);
      } else {
        AncestorsAreOrdered(c.tree, b, a, next);
      }
    } else {
      RootsDescend(c, ordered, i + 1, j);
      DescendsTransitive(c.tree, a, next, Root(c, ordered, j));
      DescendsTransitive(c.tree, a, Root(c, ordered, j), b);
    }
  }

  lemma SameHeight(c: Config, a: Hash, b: Hash)
    requires ConfigOk(c) && Descends(c.tree, a, b) && c.tree[a].number >= c.tree[b].number
    ensures a == b
  {
  }

  /** A trunk block that was met in an earlier session but lies in this one is where this one starts. */
  lemma FromEarlier(c: Config, ordered: Ordered, j: SessionId, k: SessionId, h: Hash)
    requires ConfigOk(c) && j < k && OnTrunk(c, ordered, j, h) && c.tree[h].number >= End(c, k - 1)
    ensures OnTrunk(c, ordered, k, h)
  {
    Ends(c, j);
    Monotone(j + 1, k, c.local.period);
    Ends(c, k);
    if j + 1 < k {
      Monotone(j + 2, k, c.local.period);
      Ends(c, j + 1);
    }
    SameHeight(c, h, Root(c, ordered, k));
    RootOnTrunk(c, ordered, k);
  }

  /** One that was met in a later session but lies in this one is where this one ends. */
  lemma FromLater(c: Config, ordered: Ordered, j: SessionId, k: SessionId, h: Hash)
    requires ConfigOk(c) && k < j && OnTrunk(c, ordered, j, h) && c.tree[h].number <= End(c, k)
    ensures OnTrunk(c, ordered, k, h)
  {
    Ends(c, k);
    Ends(c, j);
    Monotone(k + 1, j, c.local.period);
    if k + 1 < j {
      Monotone(k + 2, j, c.local.period);
      Ends(c, k + 1);
    }
    SameHeight(c, Root(c, ordered, j), h);
    RootsDescend(c, ordered, k, k + 1);
  }

  /** Whatever session a trunk block was met in, it belongs to the session its number falls in. */
  lemma TrunkInSession(c: Config, ordered: Ordered, k: SessionId, h: Hash)
    requires ConfigOk(c) && Trunk(c, ordered, h)
    requires k * c.local.period <= c.tree[h].number + 1 && c.tree[h].number <= End(c, k)
    ensures OnTrunk(c, ordered, k, h)
  {
    var j: SessionId :| OnTrunk(c, ordered, j, h);
    Ends(c, k);
    if j < k {
      FromEarlier(c, ordered, j, k, h);
    } else if k < j {
      FromLater(c, ordered, j, k, h);
    }
  }

  // ---- New items leave the trunk in place ----

  function Longer(ordered: Ordered, j: SessionId, item: AlephData): Ordered
  {
    ordered[j := ListOf(ordered, j) + [item]]
  }

  lemma {:induction false} RootStays(c: Config, ordered: Ordered, j: SessionId, item: AlephData, k: SessionId)
    requires ConfigOk(c) && Reached(c, ordered, k)
    ensures Root(c, Longer(ordered, j, item), k) == Root(c, ordered, k) && Reached(c, Longer(ordered, j, item), k)
  {
    if k > 0 {
      RootStays(c, ordered, j, item, k - 1);
      if k - 1 == j {
        var items := ListOf(ordered, j);
        assert (items + [item])[..|items|] == items;
        StepInTree(c.tree, End(c, j), Root(c, ordered, k), item);
      }
    }
  }

  lemma SessionStays(c: Config, ordered: Ordered, j: SessionId, item: AlephData, k: SessionId)
    requires ConfigOk(c) && Reached(c, ordered, k)
    ensures Session(c, Longer(ordered, j, item), k) == Session(c, ordered, k) && Reached(c, Longer(ordered, j, item), k)
    ensures ListOf(ordered, k) <= ListOf(Longer(ordered, j, item), k)
  {
    RootStays(c, ordered, j, item, k);
  }

  lemma TrunkStays(c: Config, ordered: Ordered, j: SessionId, item: AlephData, h: Hash)
    requires ConfigOk(c) && Trunk(c, ordered, h)
    ensures Trunk(c, Longer(ordered, j, item), h)
  {
    var k: SessionId :| OnTrunk(c, ordered, k, h);
    var longer := Longer(ordered, j, item);
    SessionStays(c, ordered, j, item, k);
    OneBranch.GoodLater(Session(c, ordered, k), ListOf(ordered, k), ListOf(longer, k), h);
    assert OnTrunk(c, longer, k, h);
  }

  // ---- The system ----

  /** The task that reads a session's items: where it started, how many it has read, and its `last_finalized`. */
  datatype Reader = Reader(start: Hash, read: nat, tip: Hash)

  /**
   An honest node: the number it started from, its two tasks, its headers, and the readers of the sessions it has
   entered. The party only signals a reader to exit, so readers of sessions gone by may go on for as long as they like.
   */
  datatype Node = Node(start: nat, local: Coupling.State, headers: Headers, readers: map<SessionId, Reader>)

  datatype State = State(
    ordered: Ordered,
    nodes: map<NodeId, Node>,
    signed: map<NodeId, set<Hash>>,
    finalized: set<Hash>)

  datatype Action =
    | Order(session: SessionId, item: AlephData)
    | Import(node: NodeId, headers: Headers)
    | Local(node: NodeId, action: Coupling.Action)
    | Begin(node: NodeId, session: SessionId)
    | Read(node: NodeId, session: SessionId)
    | Stop(node: NodeId, session: SessionId)
    | Restart(node: NodeId, now: int)

  function Fin(node: Node): Hash
  {
    node.local.finalized.hash
  }

  function First(c: Config, node: Node): SessionId
  {
    SessionIdFromBlockNum(node.start, c.local.period)
  }

  /** The node has inserted the session's authorities since it started. */
  predicate Entered(c: Config, node: Node, k: SessionId)
  {
    First(c, node) <= k <= Coupling.Latest(node.local)
  }

  /** All honest members of a quorum have signed the hash; the others sign what they like. */
  ghost predicate Certified(c: Config, s: State, authorities: Authorities, h: Hash) {
    exists q :: q in c.quorums(authorities) && forall n | n in q * c.honest :: n in s.signed && h in s.signed[n]
  }

  /** A signature verifies only once the hash is certified; a client finalizes only a block it holds, by its number. */
  ghost predicate NotifyOk(c: Config, s: State, node: Node, n: JustificationNotification, clientAccepts: bool)
    requires node.local.handler.Waiting?
  {
    var authorities := node.local.handler.ticket.authorities;
    && (c.local.verifier(authorities, n.hash, n.signature) ==> Certified(c, s, authorities, n.hash))
    && (clientAccepts ==> n.hash in node.headers && node.headers[n.hash].number == n.number)
  }

  /**
   The session's next item, once the data store lets it through. It is known, or not above the session's last block:
   for as long as the node's finalized block is not above that block this comes with being let through.
   */
  ghost predicate CanRead(c: Config, ordered: Ordered, node: Node, k: SessionId) {
    && k in node.readers && node.readers[k].read < |ListOf(ordered, k)|
    && Fin(node) in node.headers && WellNumbered(node.headers)
    && var item := ListOf(ordered, k)[node.readers[k].read];
       Admitted(node.headers, Fin(node), item) && KeepsStep(node.headers, End(c, k), item)
  }

  /** What an action asks of the node it happens at. */
  ghost predicate Can(c: Config, s: State, node: Node, a: Action)
    requires !a.Order?
  {
    match a
    case Import(_, headers) => node.headers.Items <= headers.Items && headers.Items <= c.tree.Items && Closed(headers)
    case Local(_, step) =>
      && Coupling.Enabled(c.local, node.local, step) && !step.Skip?
      && (step.Notify? ==> NotifyOk(c, s, node, step.notification, step.clientAccepts))
    case Begin(_, k) => Entered(c, node, k)
    case Read(_, k) => CanRead(c, s.ordered, node, k)
    case Stop(_, k) => true
    case Restart(_, _) => true
  }

  ghost predicate Enabled(c: Config, s: State, a: Action) {
    !a.Order? ==> a.node in s.nodes && a.node in s.signed && Can(c, s, s.nodes[a.node], a)
  }

  function Stepped(c: Config, node: Node, step: Coupling.Action): Node
    requires Coupling.Enabled(c.local, node.local, step)
  {
    node.(local := Coupling.Do(c.local, node.local, step))
  }

  /** A reader starts from what is finalized when it first runs, be that after its session. */
  function Begun(node: Node, k: SessionId): Node
  {
    node.(readers := node.readers[k := Reader(Fin(node), 0, Fin(node))])
  }

  function ReadOn(c: Config, headers: Headers, k: SessionId, items: seq<AlephData>, r: Reader): Reader
    requires r.read < |items| && WellNumbered(headers)
  {
    r.(read := r.read + 1, tip := NextTip(headers, End(c, k), r.tip, items[r.read]))
  }

  /** What the reader signs for its next item. */
  ghost function Signs(c: Config, headers: Headers, k: SessionId, items: seq<AlephData>, r: Reader): set<Hash>
    requires r.read < |items| && WellNumbered(headers)
  {
    set h | h in Started(headers, End(c, k), r.tip, items[r.read]) :: h.hash
  }

  function Restarted(c: Config, node: Node, now: int): Node
  {
    Node(node.local.finalized.number, Coupling.Start(c.local, node.local.finalized, now), node.headers, map[])
  }

  ghost function Moved(c: Config, s: State, node: Node, a: Action): Node
    requires !a.Order? && Can(c, s, node, a)
  {
    match a
    case Import(_, headers) => node.(headers := headers)
    case Local(_, step) => Stepped(c, node, step)
    case Begin(_, k) => Begun(node, k)
    case Read(_, k) => node.(readers :=
      node.readers[k := ReadOn(c, node.headers, k, ListOf(s.ordered, k), node.readers[k])])
    case Stop(_, k) => node.(readers := node.readers - {k})
    case Restart(_, now) => Restarted(c, node, now)
  }

  ghost function NewlySigned(c: Config, s: State, node: Node, a: Action): set<Hash>
    requires !a.Order? && Can(c, s, node, a)
  {
    if a.Read? then Signs(c, node.headers, a.session, ListOf(s.ordered, a.session), node.readers[a.session]) else {}
  }

  /** `finalized` collects every block that a node has had as its finalized one. */
  ghost function Do(c: Config, s: State, a: Action): State
    requires Enabled(c, s, a)
  {
    if a.Order? then s.(ordered := Longer(s.ordered, a.session, a.item))
    else
      var node := s.nodes[a.node];
      var next := Moved(c, s, node, a);
      State(s.ordered, s.nodes[a.node := next],
            s.signed[a.node := s.signed[a.node] + NewlySigned(c, s, node, a)], s.finalized + {Fin(next)})
  }

  /** A node that has just started, from the genesis. */
  ghost predicate IsFresh(c: Config, node: Node, now: int) {
    node == Node(0, Coupling.Start(c.local, AlephData(c.genesis, 0), now), node.headers, map[])
  }

  ghost predicate Init(c: Config, s: State)
    requires ConfigOk(c)
  {
    && s.ordered == map[] && s.finalized == {}
    && s.nodes.Keys == c.honest && s.signed.Keys == c.honest
    && forall n | n in c.honest ::
         && s.signed[n] == {} && Closed(s.nodes[n].headers) && s.nodes[n].headers.Items <= c.tree.Items
         && c.genesis in s.nodes[n].headers
         && exists now :: IsFresh(c, s.nodes[n], now)
  }

  ghost predicate Step(c: Config, s: State, t: State) {
    exists a :: Enabled(c, s, a) && t == Do(c, s, a)
  }

  ghost predicate StepAt(c: Config, run: seq<State>, i: nat)
    requires 0 < i < |run|
  {
    Step(c, run[i - 1], run[i])
  }

  ghost predicate IsRun(c: Config, run: seq<State>)
    requires ConfigOk(c)
  {
    && run != [] && Init(c, run[0])
    && forall i {:trigger StepAt(c, run, i)} | 0 < i < |run| :: StepAt(c, run, i)
  }

  // ---- The invariant ----

  /** What a node knows, and that its finalized block is on the trunk. */
  ghost predicate ViewOk(c: Config, ordered: Ordered, node: Node)
    requires ConfigOk(c)
  {
    && Closed(node.headers) && node.headers.Items <= c.tree.Items
    && Fin(node) in node.headers && node.headers[Fin(node)].number == node.local.finalized.number
    && Trunk(c, ordered, Fin(node))
  }

  ghost predicate LocalOk(c: Config, node: Node) {
    Coupling.Safe(c.local, node.start, node.local) && Coupling.Coupled(c.local, First(c, node), node.local)
  }

  /**
   A reader stands where its start and the list lead, at a block the node knows. Its start is on the session's chain,
   or the session was over by then and it never moves.
   */
  ghost predicate ReaderOk(c: Config, ordered: Ordered, headers: Headers, k: SessionId, r: Reader)
    requires ConfigOk(c)
  {
    && Reached(c, ordered, k) && r.read <= |ListOf(ordered, k)|
    && r.start in c.tree && (OnTrunk(c, ordered, k, r.start) || c.tree[r.start].number >= End(c, k))
    && r.tip in headers && r.tip == Tip(c.tree, End(c, k), r.start, ListOf(ordered, k)[..r.read])
  }

  ghost predicate ReadersOk(c: Config, ordered: Ordered, headers: Headers, readers: map<SessionId, Reader>)
    requires ConfigOk(c)
  {
    forall k {:trigger readers[k]} | k in readers :: ReaderOk(c, ordered, headers, k, readers[k])
  }

  ghost predicate NodeOk(c: Config, ordered: Ordered, node: Node)
    requires ConfigOk(c)
  {
    match node
    case Node(_, _, _, _) => 
      ViewOk(c, ordered, node) && LocalOk(c, node) && ReadersOk(c, ordered, node.headers, node.readers)
  }

  ghost predicate NodesOk(c: Config, ordered: Ordered, nodes: map<NodeId, Node>)
    requires ConfigOk(c)
  {
    forall n {:trigger nodes[n]} | n in nodes :: NodeOk(c, ordered, nodes[n])
  }

  ghost predicate SignedOk(c: Config, ordered: Ordered, signed: map<NodeId, set<Hash>>)
    requires ConfigOk(c)
  {
    forall n, h | n in signed && h in signed[n] :: Trunk(c, ordered, h)
  }

  ghost predicate FinalOk(c: Config, ordered: Ordered, finalized: set<Hash>)
    requires ConfigOk(c)
  {
    forall h | h in finalized :: Trunk(c, ordered, h)
  }

  ghost predicate Inv(c: Config, s: State)
    requires ConfigOk(c)
  {
    && s.nodes.Keys == c.honest && s.signed.Keys == c.honest
    && NodesOk(c, s.ordered, s.nodes)
    && SignedOk(c, s.ordered, s.signed)
    && FinalOk(c, s.ordered, s.finalized)
  }

  lemma {:induction false} ReachedEarlier(c: Config, ordered: Ordered, i: SessionId, k: SessionId)
    requires ConfigOk(c) && i <= k && Reached(c, ordered, k)
    ensures Reached(c, ordered, i)
  {
    if i < k {
      ReachedEarlier(c, ordered, i, k - 1);
    }
  }

  /** The coupling of the two tasks: what is finalized is on the chain of the session entered last. */
  lemma FinInSession(c: Config, ordered: Ordered, node: Node, k: SessionId)
    requires ConfigOk(c) && ViewOk(c, ordered, node) && LocalOk(c, node)
    requires Entered(c, node, k) && k == Coupling.Latest(node.local)
    ensures OnTrunk(c, ordered, k, Fin(node))
  {
    Coupling.LatestIn(c.local, First(c, node), node.local, k);
    InPart(node.headers, c.tree, Fin(node));
    TrunkInSession(c, ordered, k, Fin(node));
  }

  /** So until the next session is entered, whatever the data store lets through keeps step. */
  lemma CurrentKeepsStep(c: Config, ordered: Ordered, node: Node, k: SessionId, item: AlephData)
    requires ConfigOk(c) && ViewOk(c, ordered, node) && LocalOk(c, node)
    requires Entered(c, node, k) && k == Coupling.Latest(node.local) && Admitted(node.headers, Fin(node), item)
    ensures KeepsStep(node.headers, End(c, k), item)
  {
    Coupling.LatestIn(c.local, First(c, node), node.local, k);
    BoundKeepsStep(node.headers, Fin(node), End(c, k), item);
  }

  /** And it is at or above the last blocks of all sessions entered before. */
  lemma FinAboveEarlier(c: Config, ordered: Ordered, node: Node, k: SessionId)
    requires ConfigOk(c) && ViewOk(c, ordered, node) && LocalOk(c, node)
    requires Entered(c, node, k) && k < Coupling.Latest(node.local)
    ensures Reached(c, ordered, k) && Fin(node) in c.tree && c.tree[Fin(node)].number >= End(c, k)
  {
    var latest: SessionId := Coupling.Latest(node.local);
    Coupling.LatestIn(c.local, First(c, node), node.local, latest);
    FinInSession(c, ordered, node, latest);
    ReachedEarlier(c, ordered, k, latest);
    InPart(node.headers, c.tree, Fin(node));
    Monotone(k + 1, latest, c.local.period);
    Ends(c, k);
  }

  lemma CertifiedIsTrunk(c: Config, s: State, k: SessionId, h: Hash)
    requires ConfigOk(c) && SignedOk(c, s.ordered, s.signed) && Certified(c, s, c.local.runtime(k), h)
    ensures Trunk(c, s.ordered, h)
  {
    var q :| q in c.quorums(c.local.runtime(k)) && forall n | n in q * c.honest :: n in s.signed && h in s.signed[n];
    var n :| n in q * c.honest;
    assert h in s.signed[n];
  }

  lemma OrderKeepsReader(c: Config, ordered: Ordered, j: SessionId, item: AlephData, headers: Headers, k: SessionId,
    r: Reader)
    requires ConfigOk(c) && ReaderOk(c, ordered, headers, k, r)
    ensures ReaderOk(c, Longer(ordered, j, item), headers, k, r)
  {
    var longer := Longer(ordered, j, item);
    SessionStays(c, ordered, j, item, k);
    assert ListOf(longer, k)[..r.read] == ListOf(ordered, k)[..r.read];
    if OnTrunk(c, ordered, k, r.start) {
      OneBranch.GoodLater(Session(c, ordered, k), ListOf(ordered, k), ListOf(longer, k), r.start);
    }
  }

  lemma OrderKeepsNode(c: Config, ordered: Ordered, j: SessionId, item: AlephData, node: Node)
    requires ConfigOk(c) && NodeOk(c, ordered, node)
    ensures NodeOk(c, Longer(ordered, j, item), node)
  {
    TrunkStays(c, ordered, j, item, Fin(node));
    forall k | k in node.readers ensures ReaderOk(c, Longer(ordered, j, item), node.headers, k, node.readers[k]) {
      OrderKeepsReader(c, ordered, j, item, node.headers, k, node.readers[k]);
    }
  }

  lemma OrderKeepsInv(c: Config, s: State, j: SessionId, item: AlephData)
    requires ConfigOk(c) && Inv(c, s)
    ensures Inv(c, Do(c, s, Order(j, item)))
  {
    forall h | Trunk(c, s.ordered, h) ensures Trunk(c, Longer(s.ordered, j, item), h) {
      TrunkStays(c, s.ordered, j, item, h);
    }
    forall n | n in s.nodes ensures NodeOk(c, Longer(s.ordered, j, item), s.nodes[n]) {
      OrderKeepsNode(c, s.ordered, j, item, s.nodes[n]);
    }
  }

  lemma ImportKeepsReaders(c: Config, ordered: Ordered, part: Headers, headers: Headers, readers: map<SessionId,
    Reader>)
    requires ConfigOk(c) && ReadersOk(c, ordered, part, readers) && part.Items <= headers.Items
    ensures ReadersOk(c, ordered, headers, readers)
  {
    forall k | k in readers ensures ReaderOk(c, ordered, headers, k, readers[k]) {
      assert ReaderOk(c, ordered, part, k, readers[k]);
      InPart(part, headers, readers[k].tip);
    }
  }

  lemma ImportKeepsNode(c: Config, ordered: Ordered, node: Node, headers: Headers)
    requires ConfigOk(c) && NodeOk(c, ordered, node)
    requires node.headers.Items <= headers.Items && headers.Items <= c.tree.Items && Closed(headers)
    ensures NodeOk(c, ordered, node.(headers := headers))
  {
    InPart(node.headers, headers, Fin(node));
    ImportKeepsReaders(c, ordered, node.headers, headers, node.readers);
  }

  lemma NewReaderOk(c: Config, ordered: Ordered, node: Node, k: SessionId)
    requires ConfigOk(c) && ViewOk(c, ordered, node) && LocalOk(c, node) && Entered(c, node, k)
    ensures ReaderOk(c, ordered, node.headers, k, Reader(Fin(node), 0, Fin(node)))
  {
    InPart(node.headers, c.tree, Fin(node));
    if k == Coupling.Latest(node.local) {
      FinInSession(c, ordered, node, k);
    } else {
      FinAboveEarlier(c, ordered, node, k);
    }
  }

  lemma OneReaderStaysOk(c: Config, ordered: Ordered, headers: Headers, readers: map<SessionId, Reader>, k: SessionId,
    r: Reader)
    requires ConfigOk(c) && ReadersOk(c, ordered, headers, readers) && ReaderOk(c, ordered, headers, k, r)
    ensures ReadersOk(c, ordered, headers, readers[k := r])
  {
  }

  lemma BeginKeepsNode(c: Config, ordered: Ordered, node: Node, k: SessionId)
    requires ConfigOk(c) && NodeOk(c, ordered, node) && Entered(c, node, k)
    ensures NodeOk(c, ordered, Begun(node, k))
  {
    NewReaderOk(c, ordered, node, k);
    OneReaderStaysOk(c, ordered, node.headers, node.readers, k, Reader(Fin(node), 0, Fin(node)));
  }

  lemma StopKeepsNode(c: Config, ordered: Ordered, node: Node, k: SessionId)
    requires ConfigOk(c) && NodeOk(c, ordered, node)
    ensures NodeOk(c, ordered, node.(readers := node.readers - {k}))
  {
  }

  lemma RestartKeepsNode(c: Config, ordered: Ordered, node: Node, now: int)
    requires ConfigOk(c) && NodeOk(c, ordered, node)
    ensures NodeOk(c, ordered, Restarted(c, node, now))
  {
    Coupling.StartIsCoupled(c.local, node.local.finalized, now);
  }

  /** A trunk block of any session is on one branch with where any session ends up. */
  lemma TrunkBesideEnd(c: Config, ordered: Ordered, k: SessionId, h: Hash)
    requires ConfigOk(c) && Trunk(c, ordered, h)
    ensures Comparable(c.tree, h, Root(c, ordered, k + 1))
  {
    var j: SessionId :| OnTrunk(c, ordered, j, h);
    var from, to, end := Root(c, ordered, j), Root(c, ordered, j + 1), Root(c, ordered, k + 1);
    assert Descends(c.tree, from, h) && Descends(c.tree, h, to);
    if j <= k {
      RootsDescend(c, ordered, j + 1, k + 1);
      DescendsTransitive(c.tree, h, to, end);
    } else {
      RootsDescend(c, ordered, k + 1, j);
      DescendsTransitive(c.tree, end, from, h);
    }
  }

  /** A reader that started once its session was over never moves and never signs. */
  lemma LateReader(c: Config, ordered: Ordered, headers: Headers, k: SessionId, r: Reader)
    requires ConfigOk(c) && Closed(headers) && headers.Items <= c.tree.Items
    requires ReaderOk(c, ordered, headers, k, r) && r.read < |ListOf(ordered, k)|
    requires c.tree[r.start].number >= End(c, k)
    ensures ReadOn(c, headers, k, ListOf(ordered, k), r) == r.(read := r.read + 1)
    ensures Tip(c.tree, End(c, k), r.start, ListOf(ordered, k)[..r.read + 1]) == r.tip
    ensures Started(headers, End(c, k), r.tip, ListOf(ordered, k)[r.read]) == []
  {
    TipStaysAtEnd(c.tree, End(c, k), r.start, ListOf(ordered, k)[..r.read]);
    TipStaysAtEnd(c.tree, End(c, k), r.start, ListOf(ordered, k)[..r.read + 1]);
    InPart(headers, c.tree, r.tip);
    StepInTree(headers, End(c, k), r.tip, ListOf(ordered, k)[r.read]);
  }

  /** A reader on its session's chain: whatever else is finalized by now, its tip stays the common list's. */
  lemma ReaderFollowsList(c: Config, ordered: Ordered, headers: Headers, fin: Hash, k: SessionId, r: Reader)
    requires ConfigOk(c) && Closed(headers) && headers.Items <= c.tree.Items && fin in headers && Trunk(c, ordered, fin)
    requires ReaderOk(c, ordered, headers, k, r) && r.read < |ListOf(ordered, k)| && OnTrunk(c, ordered, k, r.start)
    requires Admitted(headers, fin, ListOf(ordered, k)[r.read])
    requires KeepsStep(headers, End(c, k), ListOf(ordered, k)[r.read])
    ensures var next := NextTip(headers, End(c, k), r.tip, ListOf(ordered, k)[r.read]);
            && next in headers && next == Tip(c.tree, End(c, k), r.start, ListOf(ordered, k)[..r.read + 1])
            && OnTrunk(c, ordered, k, r.tip) && OnTrunk(c, ordered, k, next)
  {
    var o, items, i := Session(c, ordered, k), ListOf(ordered, k), r.read;
    OneBranch.OwnTipIsGood(o, items, r.start, i);
    OneBranch.OwnTipIsGood(o, items, r.start, i + 1);
    InPart(headers, c.tree, fin);
    TrunkBesideEnd(c, ordered, k, fin);
    OneBranch.NextFollowsList(o, items, headers, fin, r.start, i);
  }

  /**
   The guard is exact: a reader on its session's chain, given an admitted item, stays with the common list exactly when
   the item is known or not above the session's last block, or would not have moved it.
   */
  lemma ReaderFollowsIff(c: Config, ordered: Ordered, headers: Headers, fin: Hash, k: SessionId, r: Reader)
    requires ConfigOk(c) && Closed(headers) && headers.Items <= c.tree.Items && fin in headers && Trunk(c, ordered, fin)
    requires ReaderOk(c, ordered, headers, k, r) && r.read < |ListOf(ordered, k)| && OnTrunk(c, ordered, k, r.start)
    requires Admitted(headers, fin, ListOf(ordered, k)[r.read])
    ensures var item := ListOf(ordered, k)[r.read];
            NextTip(headers, End(c, k), r.tip, item) ==
              Tip(c.tree, End(c, k), r.start, ListOf(ordered, k)[..r.read + 1])
            <==> KeepsStep(headers, End(c, k), item)
                 || !Extends(c.tree, r.tip, item) || c.tree[r.tip].number >= End(c, k)
  {
    var o, items, i := Session(c, ordered, k), ListOf(ordered, k), r.read;
    OneBranch.TipOfNext(o, r.start, items, i);
    OneBranch.OwnTipIsGood(o, items, r.start, i + 1);
    InPart(headers, c.tree, fin);
    InPart(headers, c.tree, r.tip);
    TrunkBesideEnd(c, ordered, k, fin);
    AdmittedExact(c.tree, headers, End(c, k), r.tip, fin, items[i], Root(c, ordered, k + 1));
  }

  lemma ReaderKeepsStep(c: Config, ordered: Ordered, headers: Headers, fin: Hash, k: SessionId, r: Reader)
    requires ConfigOk(c) && Closed(headers) && headers.Items <= c.tree.Items && fin in headers && Trunk(c, ordered, fin)
    requires ReaderOk(c, ordered, headers, k, r) && r.read < |ListOf(ordered, k)|
    requires Admitted(headers, fin, ListOf(ordered, k)[r.read])
    requires KeepsStep(headers, End(c, k), ListOf(ordered, k)[r.read])
    ensures ReaderOk(c, ordered, headers, k, ReadOn(c, headers, k, ListOf(ordered, k), r))
    ensures forall h | h in Signs(c, headers, k, ListOf(ordered, k), r) :: OnTrunk(c, ordered, k, h)
  {
    if OnTrunk(c, ordered, k, r.start) {
      ReaderFollowsList(c, ordered, headers, fin, k, r);
      OneBranch.StartedIsGood(Session(c, ordered, k), ListOf(ordered, k), headers, r.tip, ListOf(ordered, k)[r.read]);
    } else {
      LateReader(c, ordered, headers, k, r);
    }
  }

  lemma ReadKeepsNode(c: Config, ordered: Ordered, node: Node, k: SessionId)
    requires ConfigOk(c) && NodeOk(c, ordered, node) && CanRead(c, ordered, node, k)
    ensures var items, r := ListOf(ordered, k), node.readers[k];
            && NodeOk(c, ordered, node.(readers := node.readers[k := ReadOn(c, node.headers, k, items, r)]))
            && forall h | h in Signs(c, node.headers, k, items, r) :: Trunk(c, ordered, h)
  {
    var items, r := ListOf(ordered, k), node.readers[k];
    assert ReaderOk(c, ordered, node.headers, k, r);
    ReaderKeepsStep(c, ordered, node.headers, Fin(node), k, r);
    OneReaderStaysOk(c, ordered, node.headers, node.readers, k, ReadOn(c, node.headers, k, items, r));
  }

  /** A step of the two tasks moves the finalized block only to a certified one that is higher. */
  lemma StepFinalizes(c: Config, node: Node, step: Coupling.Action)
    requires LocalOk(c, node) && Coupling.Enabled(c.local, node.local, step)
    ensures var t := Coupling.Do(c.local, node.local, step);
            t.finalized != node.local.finalized ==>
              && step.Notify? && step.clientAccepts
              && t.finalized == AlephData(step.notification.hash, step.notification.number)
              && t.finalized.number > node.local.finalized.number
              && node.local.handler.ticket.authorities ==
                 c.local.runtime(WantedSession(node.local.finalized.number, c.local.period))
              && c.local.verifier(node.local.handler.ticket.authorities, t.finalized.hash, step.notification.signature)
  {
  }

  lemma StepKeepsView(c: Config, s: State, node: Node, step: Coupling.Action)
    requires ConfigOk(c) && SignedOk(c, s.ordered, s.signed) && NodeOk(c, s.ordered, node)
    requires Coupling.Enabled(c.local, node.local, step)
    requires step.Notify? ==> NotifyOk(c, s, node, step.notification, step.clientAccepts)
    ensures ViewOk(c, s.ordered, Stepped(c, node, step))
  {
    StepFinalizes(c, node, step);
    var t := Coupling.Do(c.local, node.local, step);
    if t.finalized != node.local.finalized {
      CertifiedIsTrunk(c, s, WantedSession(node.local.finalized.number, c.local.period), t.finalized.hash);
    }
  }

  lemma StepKeepsNode(c: Config, s: State, node: Node, step: Coupling.Action)
    requires ConfigOk(c) && SignedOk(c, s.ordered, s.signed) && NodeOk(c, s.ordered, node)
    requires Coupling.Enabled(c.local, node.local, step) && !step.Skip?
    requires step.Notify? ==> NotifyOk(c, s, node, step.notification, step.clientAccepts)
    ensures NodeOk(c, s.ordered, Stepped(c, node, step))
  {
    StepKeepsView(c, s, node, step);
    Coupling.StepIsSafe(c.local, node.start, node.local, step);
    Coupling.StepKeepsCoupled(c.local, First(c, node), node.local, step);
  }

  lemma MovedIsOk(c: Config, s: State, node: Node, a: Action)
    requires ConfigOk(c) && SignedOk(c, s.ordered, s.signed) && NodeOk(c, s.ordered, node) && !a.Order?
             && Can(c, s, node, a)
    ensures NodeOk(c, s.ordered, Moved(c, s, node, a))
    ensures forall h | h in NewlySigned(c, s, node, a) :: Trunk(c, s.ordered, h)
  {
    match a
    case Import(_, headers) => ImportKeepsNode(c, s.ordered, node, headers);
    case Local(_, step) => StepKeepsNode(c, s, node, step);
    case Begin(_, k) => BeginKeepsNode(c, s.ordered, node, k);
    case Read(_, k) => ReadKeepsNode(c, s.ordered, node, k);
    case Stop(_, k) => StopKeepsNode(c, s.ordered, node, k);
    case Restart(_, now) => RestartKeepsNode(c, s.ordered, node, now);
  }

  lemma NodesStayOk(c: Config, ordered: Ordered, nodes: map<NodeId, Node>, n: NodeId, next: Node)
    requires ConfigOk(c) && n in nodes && NodesOk(c, ordered, nodes) && NodeOk(c, ordered, next)
    ensures NodesOk(c, ordered, nodes[n := next]) && nodes[n := next].Keys == nodes.Keys
  {
  }

  lemma SignedStaysOk(c: Config, ordered: Ordered, signed: map<NodeId, set<Hash>>, n: NodeId, signs: set<Hash>)
    requires ConfigOk(c) && n in signed && SignedOk(c, ordered, signed)
    requires forall h | h in signs :: Trunk(c, ordered, h)
    ensures SignedOk(c, ordered, signed[n := signed[n] + signs]) && signed[n := signed[n] + signs].Keys == signed.Keys
  {
  }

  lemma FinalStaysOk(c: Config, ordered: Ordered, finalized: set<Hash>, next: Node)
    requires ConfigOk(c) && FinalOk(c, ordered, finalized) && NodeOk(c, ordered, next)
    ensures FinalOk(c, ordered, finalized + {Fin(next)})
  {
  }

  /** A change of one node that keeps it right, and signs trunk blocks only, keeps the invariant. */
  lemma OneNodeKeepsInv(c: Config, s: State, n: NodeId, next: Node, signs: set<Hash>)
    requires ConfigOk(c) && Inv(c, s) && n in s.nodes && NodeOk(c, s.ordered, next)
    requires forall h | h in signs :: Trunk(c, s.ordered, h)
    ensures Inv(c, State(s.ordered, s.nodes[n := next], s.signed[n := s.signed[n] + signs], s.finalized + {Fin(next)}))
  {
    NodesStayOk(c, s.ordered, s.nodes, n, next);
    SignedStaysOk(c, s.ordered, s.signed, n, signs);
    FinalStaysOk(c, s.ordered, s.finalized, next);
  }

  lemma StepKeepsInv(c: Config, s: State, a: Action)
    requires ConfigOk(c) && Inv(c, s) && Enabled(c, s, a)
    ensures Inv(c, Do(c, s, a))
  {
    if a.Order? {
      OrderKeepsInv(c, s, a.session, a.item);
    } else {
      var node := s.nodes[a.node];
      assert NodeOk(c, s.ordered, node);
      MovedIsOk(c, s, node, a);
      OneNodeKeepsInv(c, s, a.node, Moved(c, s, node, a), NewlySigned(c, s, node, a));
    }
  }

  lemma StartIsOk(c: Config, s: State)
    requires ConfigOk(c) && Init(c, s)
    ensures Inv(c, s)
  {
    RootOnTrunk(c, map[], 0);
    forall n | n in s.nodes ensures NodeOk(c, s.ordered, s.nodes[n]) {
      var now :| IsFresh(c, s.nodes[n], now);
      Coupling.StartIsCoupled(c.local, AlephData(c.genesis, 0), now);
      InPart(s.nodes[n].headers, c.tree, c.genesis);
    }
  }

  // ---- Safety across sessions ----

  lemma TrunkIsOneBranch(c: Config, ordered: Ordered, a: Hash, b: Hash)
    requires ConfigOk(c) && Trunk(c, ordered, a) && Trunk(c, ordered, b)
    ensures Descends(c.tree, a, b) || Descends(c.tree, b, a)
  {
    var i: SessionId :| OnTrunk(c, ordered, i, a);
    var j: SessionId :| OnTrunk(c, ordered, j, b);
    if i <= j {
      TrunkIsOrdered(c, ordered, i, j, a, b);
    } else {
      TrunkIsOrdered(c, ordered, j, i, b, a);
    }
  }

  lemma ViewKnowsFin(c: Config, ordered: Ordered, node: Node)
    requires ConfigOk(c) && ViewOk(c, ordered, node)
    ensures Fin(node) in c.tree && c.tree[Fin(node)].number == node.local.finalized.number
  {
    InPart(node.headers, c.tree, Fin(node));
  }

  lemma FinExtends(c: Config, ordered: Ordered, node: Node, next: Node)
    requires ConfigOk(c) && ViewOk(c, ordered, node) && ViewOk(c, ordered, next)
    requires next.local.finalized != node.local.finalized ==> next.local.finalized.number > node.local.finalized.number
    ensures Descends(c.tree, Fin(node), Fin(next))
  {
    ViewKnowsFin(c, ordered, node);
    ViewKnowsFin(c, ordered, next);
    TrunkIsOneBranch(c, ordered, Fin(node), Fin(next));
  }

  lemma MovedExtends(c: Config, s: State, node: Node, a: Action)
    requires ConfigOk(c) && SignedOk(c, s.ordered, s.signed) && NodeOk(c, s.ordered, node) && !a.Order?
             && Can(c, s, node, a)
    ensures Descends(c.tree, Fin(node), Fin(Moved(c, s, node, a)))
  {
    MovedIsOk(c, s, node, a);
    if a.Local? {
      StepFinalizes(c, node, a.action);
    }
    FinExtends(c, s.ordered, node, Moved(c, s, node, a));
  }

  /** From one state to another, the nodes' finalized blocks have moved to descendants only. */
  ghost predicate Extended(c: Config, s: State, t: State)
    requires ConfigOk(c)
  {
    forall n | n in c.honest :: n in s.nodes && n in t.nodes && Descends(c.tree, Fin(s.nodes[n]), Fin(t.nodes[n]))
  }

  lemma DoAt(c: Config, s: State, a: Action, n: NodeId)
    requires Enabled(c, s, a) && n in s.nodes
    ensures n in Do(c, s, a).nodes
    ensures Do(c, s, a).nodes[n] == if !a.Order? && a.node == n then Moved(c, s, s.nodes[n], a) else s.nodes[n]
  {
  }

  lemma NodeExtends(c: Config, s: State, a: Action, n: NodeId)
    requires ConfigOk(c) && SignedOk(c, s.ordered, s.signed) && Enabled(c, s, a) && n in s.nodes
             && NodeOk(c, s.ordered, s.nodes[n])
    ensures n in Do(c, s, a).nodes && Descends(c.tree, Fin(s.nodes[n]), Fin(Do(c, s, a).nodes[n]))
  {
    DoAt(c, s, a, n);
    if !a.Order? && a.node == n {
      MovedExtends(c, s, s.nodes[n], a);
    } else {
      ViewKnowsFin(c, s.ordered, s.nodes[n]);
    }
  }

  lemma StepExtends(c: Config, s: State, a: Action)
    requires ConfigOk(c) && Inv(c, s) && Enabled(c, s, a)
    ensures Extended(c, s, Do(c, s, a))
  {
    var t := Do(c, s, a);
    forall n | n in c.honest
      ensures n in s.nodes && n in t.nodes && Descends(c.tree, Fin(s.nodes[n]), Fin(t.nodes[n]))
    {
      NodeExtends(c, s, a, n);
    }
  }

  lemma NextInRun(c: Config, s: State, t: State)
    requires ConfigOk(c) && Inv(c, s) && Step(c, s, t)
    ensures Inv(c, t) && Extended(c, s, t)
  {
    var a :| Enabled(c, s, a) && t == Do(c, s, a);
    StepKeepsInv(c, s, a);
    StepExtends(c, s, a);
  }

  lemma {:induction false} RunKeepsInv(c: Config, run: seq<State>, k: nat)
    requires ConfigOk(c) && IsRun(c, run) && k < |run|
    ensures Inv(c, run[k])
  {
    if k == 0 {
      StartIsOk(c, run[0]);
    } else {
      RunKeepsInv(c, run, k - 1);
      assert StepAt(c, run, k);
      NextInRun(c, run[k - 1], run[k]);
    }
  }

  /** In every reachable state, blocks certified under the authorities of any two sessions lie on one branch. */
  lemma CertifiedOnOneBranch(c: Config, run: seq<State>, i: SessionId, j: SessionId, a: Hash, b: Hash)
    requires ConfigOk(c) && IsRun(c, run)
    requires Certified(c, run[|run| - 1], c.local.runtime(i), a) && Certified(c, run[|run| - 1], c.local.runtime(j), b)
    ensures Descends(c.tree, a, b) || Descends(c.tree, b, a)
  {
    RunKeepsInv(c, run, |run| - 1);
    CertifiedIsTrunk(c, run[|run| - 1], i, a);
    CertifiedIsTrunk(c, run[|run| - 1], j, b);
    TrunkIsOneBranch(c, run[|run| - 1].ordered, a, b);
  }

  /** Any two blocks that honest nodes ever finalized, in any sessions, lie on one branch. */
  lemma FinalizedOnOneBranch(c: Config, run: seq<State>, a: Hash, b: Hash)
    requires ConfigOk(c) && IsRun(c, run)
    requires a in run[|run| - 1].finalized && b in run[|run| - 1].finalized
    ensures Descends(c.tree, a, b) || Descends(c.tree, b, a)
  {
    RunKeepsInv(c, run, |run| - 1);
    TrunkIsOneBranch(c, run[|run| - 1].ordered, a, b);
  }

  lemma NextExtends(c: Config, run: seq<State>, k: nat)
    requires ConfigOk(c) && IsRun(c, run) && k + 1 < |run|
    ensures Extended(c, run[k], run[k + 1])
  {
    RunKeepsInv(c, run, k);
    assert StepAt(c, run, k + 1);
    NextInRun(c, run[k], run[k + 1]);
  }

  lemma ExtendedTwice(c: Config, s: State, t: State, u: State)
    requires ConfigOk(c) && Extended(c, s, t) && Extended(c, t, u)
    ensures Extended(c, s, u)
  {
    forall n | n in c.honest ensures Descends(c.tree, Fin(s.nodes[n]), Fin(u.nodes[n])) {
      DescendsTransitive(c.tree, Fin(s.nodes[n]), Fin(t.nodes[n]), Fin(u.nodes[n]));
    }
  }

  /** A node's finalized block only ever moves to descendants, through sessions and restarts. */
  lemma {:induction false} FinalizationExtends(c: Config, run: seq<State>, i: nat, j: nat)
    requires ConfigOk(c) && IsRun(c, run) && i < j < |run|
    ensures Extended(c, run[i], run[j])
    decreases j - i
  {
    NextExtends(c, run, i);
    if i + 1 < j {
      FinalizationExtends(c, run, i + 1, j);
      ExtendedTwice(c, run[i], run[i + 1], run[j]);
    } else {
      assert run[i + 1] == run[j];
    }
  }

  // ---- What readers sign ----

  /** The node has signed all blocks from the reader's start up to its tip. */
  ghost predicate PathSigned(c: Config, signed: set<Hash>, r: Reader)
    requires Closed(c.tree)
  {
    Descends(c.tree, r.start, r.tip) && forall h | h in Path(c.tree, r.start, r.tip) :: h.hash in signed
  }

  ghost predicate PathsSigned(c: Config, signed: set<Hash>, readers: map<SessionId, Reader>)
    requires Closed(c.tree)
  {
    forall k {:trigger readers[k]} | k in readers :: PathSigned(c, signed, readers[k])
  }

  ghost predicate AllPathsSigned(c: Config, s: State)
    requires Closed(c.tree)
  {
    forall n | n in s.nodes && n in s.signed :: PathsSigned(c, s.signed[n], s.nodes[n].readers)
  }

  /** An item makes a reader sign exactly the blocks from its tip up to its next one. */
  lemma SignsThePath(c: Config, headers: Headers, k: SessionId, items: seq<AlephData>, r: Reader, h: Hash)
    requires Closed(c.tree) && Closed(headers) && headers.Items <= c.tree.Items
    requires r.tip in headers && r.read < |items|
    ensures var next := ReadOn(c, headers, k, items, r).tip;
            && Descends(c.tree, r.tip, next)
            && (h in Signs(c, headers, k, items, r) <==> exists x :: x in Path(c.tree, r.tip, next) && x.hash == h)
  {
    var next := ReadOn(c, headers, k, items, r).tip;
    StepInTree(headers, End(c, k), r.tip, items[r.read]);
    PathInPart(headers, c.tree, r.tip, next);
  }

  lemma ReadSignsOn(c: Config, headers: Headers, k: SessionId, items: seq<AlephData>, r: Reader, signed: set<Hash>)
    requires Closed(c.tree) && Closed(headers) && headers.Items <= c.tree.Items
    requires r.tip in headers && r.read < |items| && PathSigned(c, signed, r)
    ensures PathSigned(c, signed + Signs(c, headers, k, items, r), ReadOn(c, headers, k, items, r))
  {
    var next := ReadOn(c, headers, k, items, r).tip;
    SignsThePath(c, headers, k, items, r, r.tip);
    PathsJoin(c.tree, r.start, r.tip, next);
    forall x | x in Path(c.tree, r.start, next) ensures x.hash in signed + Signs(c, headers, k, items, r) {
      if x !in Path(c.tree, r.start, r.tip) {
        assert x in Path(c.tree, r.tip, next);
        SignsThePath(c, headers, k, items, r, x.hash);
      }
    }
  }

  lemma MovedSigns(c: Config, s: State, node: Node, a: Action, signed: set<Hash>)
    requires ConfigOk(c) && NodeOk(c, s.ordered, node) && !a.Order? && Can(c, s, node, a)
    requires PathsSigned(c, signed, node.readers)
    ensures PathsSigned(c, signed + NewlySigned(c, s, node, a), Moved(c, s, node, a).readers)
  {
    var readers := Moved(c, s, node, a).readers;
    forall k | k in readers ensures PathSigned(c, signed + NewlySigned(c, s, node, a), readers[k]) {
      if a.Read? && a.session == k {
        assert ReaderOk(c, s.ordered, node.headers, k, node.readers[k]);
        assert PathSigned(c, signed, node.readers[k]);
        ReadSignsOn(c, node.headers, k, ListOf(s.ordered, k), node.readers[k], signed);
      } else if a.Begin? && a.session == k {
        ViewKnowsFin(c, s.ordered, node);
      } else {
        assert k in node.readers && readers[k] == node.readers[k] && PathSigned(c, signed, node.readers[k]);
      }
    }
  }

  lemma NodeSigns(c: Config, s: State, a: Action, n: NodeId)
    requires ConfigOk(c) && Enabled(c, s, a) && n in s.nodes && n in s.signed && NodeOk(c, s.ordered, s.nodes[n])
    requires PathsSigned(c, s.signed[n], s.nodes[n].readers)
    ensures var t := Do(c, s, a);
            n in t.nodes && n in t.signed && PathsSigned(c, t.signed[n], t.nodes[n].readers)
  {
    DoAt(c, s, a, n);
    if !a.Order? && a.node == n {
      MovedSigns(c, s, s.nodes[n], a, s.signed[n]);
    }
  }

  lemma NextSigns(c: Config, s: State, t: State)
    requires ConfigOk(c) && NodesOk(c, s.ordered, s.nodes) && Step(c, s, t) && AllPathsSigned(c, s)
    requires s.nodes.Keys == s.signed.Keys && t.nodes.Keys == s.nodes.Keys
    ensures AllPathsSigned(c, t)
  {
    var a :| Enabled(c, s, a) && t == Do(c, s, a);
    forall n | n in t.nodes && n in t.signed ensures PathsSigned(c, t.signed[n], t.nodes[n].readers) {
      assert n in s.nodes && n in s.signed && NodeOk(c, s.ordered, s.nodes[n]);
      NodeSigns(c, s, a, n);
    }
  }

  lemma StartSigns(c: Config, s: State)
    requires ConfigOk(c) && Init(c, s)
    ensures AllPathsSigned(c, s)
  {
    forall n | n in s.nodes ensures s.nodes[n].readers == map[] {
      var now :| IsFresh(c, s.nodes[n], now);
    }
  }

  /** The invariant, and the signatures made. */
  ghost predicate FullInv(c: Config, s: State)
    requires ConfigOk(c)
  {
    Inv(c, s) && AllPathsSigned(c, s)
  }

  lemma StepKeepsFullInv(c: Config, s: State, t: State)
    requires ConfigOk(c) && FullInv(c, s) && Step(c, s, t)
    ensures FullInv(c, t)
  {
    NextInRun(c, s, t);
    NextSigns(c, s, t);
  }

  lemma {:induction false} RunKeepsFullInv(c: Config, run: seq<State>, k: nat)
    requires ConfigOk(c) && IsRun(c, run) && k < |run|
    ensures FullInv(c, run[k])
  {
    if k == 0 {
      StartIsOk(c, run[0]);
      StartSigns(c, run[0]);
    } else {
      RunKeepsFullInv(c, run, k - 1);
      assert StepAt(c, run, k);
      StepKeepsFullInv(c, run[k - 1], run[k]);
    }
  }

  /** In every reachable state honest nodes have signed the whole of the paths that their readers came along. */
  lemma RunSigns(c: Config, run: seq<State>)
    requires ConfigOk(c) && IsRun(c, run)
    ensures AllPathsSigned(c, run[|run| - 1]) && SignsInv(c, run[|run| - 1])
  {
    RunKeepsFullInv(c, run, |run| - 1);
  }

  /** What is needed of the invariant to follow the signatures. */
  ghost predicate SignsInv(c: Config, s: State)
    requires ConfigOk(c)
  {
    s.nodes.Keys == c.honest && s.signed.Keys == c.honest && NodesOk(c, s.ordered, s.nodes)
  }

  /** Some reader of the node has passed the block: it started below it, and stands at it or above. */
  ghost predicate Passed(c: Config, readers: map<SessionId, Reader>, h: Hash)
    requires Closed(c.tree)
  {
    exists k :: k in readers && Descends(c.tree, readers[k].start, h) && readers[k].start != h
                && Descends(c.tree, h, readers[k].tip)
  }

  lemma PassedIsSigned(c: Config, readers: map<SessionId, Reader>, signed: set<Hash>, h: Hash)
    requires Closed(c.tree) && PathsSigned(c, signed, readers) && Passed(c, readers, h)
    ensures h in signed
  {
    var k :| k in readers && Descends(c.tree, readers[k].start, h) && readers[k].start != h
             && Descends(c.tree, h, readers[k].tip);
    assert PathSigned(c, signed, readers[k]);
    PathHas(c.tree, readers[k].start, readers[k].tip, h);
  }

  lemma PassedIsCertified(c: Config, s: State, authorities: Authorities, q: set<NodeId>, h: Hash)
    requires Closed(c.tree) && AllPathsSigned(c, s) && s.signed.Keys == c.honest && q in c.quorums(authorities)
    requires forall n | n in q * c.honest :: n in s.nodes && Passed(c, s.nodes[n].readers, h)
    ensures Certified(c, s, authorities, h)
  {
    forall n | n in q * c.honest ensures n in s.signed && h in s.signed[n] {
      assert PathsSigned(c, s.signed[n], s.nodes[n].readers);
      PassedIsSigned(c, s.nodes[n].readers, s.signed[n], h);
    }
  }

  /** In every reachable state a block is certified once readers of all honest members of a quorum have passed it. */
  lemma CertifiedOncePassed(c: Config, run: seq<State>, authorities: Authorities, q: set<NodeId>, h: Hash)
    requires ConfigOk(c) && IsRun(c, run) && q in c.quorums(authorities)
    requires forall n | n in q * c.honest :: n in run[|run| - 1].nodes && Passed(c, run[|run| - 1].nodes[n].readers, h)
    ensures Certified(c, run[|run| - 1], authorities, h)
  {
    RunSigns(c, run);
    PassedIsCertified(c, run[|run| - 1], authorities, q, h);
  }

  /** The node's reader of the session started where the session does, and has read all there is. */
  ghost predicate ReadAll(c: Config, ordered: Ordered, readers: map<SessionId, Reader>, k: SessionId)
    requires ConfigOk(c)
  {
    k in readers && readers[k].start == Root(c, ordered, k) && readers[k].read == |ListOf(ordered, k)|
  }

  lemma ReadAllPassed(c: Config, ordered: Ordered, node: Node, k: SessionId)
    requires ConfigOk(c) && NodeOk(c, ordered, node) && ReadAll(c, ordered, node.readers, k)
    requires Root(c, ordered, k) != Root(c, ordered, k + 1)
    ensures Passed(c, node.readers, Root(c, ordered, k + 1))
  {
    var r, items := node.readers[k], ListOf(ordered, k);
    assert ReaderOk(c, ordered, node.headers, k, r);
    assert items[..r.read] == items;
    RootsDescend(c, ordered, k, k + 1);
    RootsDescend(c, ordered, k + 1, k + 1);
  }

  lemma AllReadIsCertified(c: Config, s: State, k: SessionId, q: set<NodeId>)
    requires ConfigOk(c) && AllPathsSigned(c, s) && SignsInv(c, s) && q in c.quorums(c.local.runtime(k))
    requires Root(c, s.ordered, k) != Root(c, s.ordered, k + 1)
    requires forall n | n in q * c.honest :: n in s.nodes && ReadAll(c, s.ordered, s.nodes[n].readers, k)
    ensures Certified(c, s, c.local.runtime(k), Root(c, s.ordered, k + 1))
  {
    var end := Root(c, s.ordered, k + 1);
    forall n | n in q * c.honest ensures n in s.nodes && Passed(c, s.nodes[n].readers, end) {
      ReadAllPassed(c, s.ordered, s.nodes[n], k);
    }
    PassedIsCertified(c, s, c.local.runtime(k), q, end);
  }

  /** So what a session's list leads to is certified once all honest members of a quorum have read the list. */
  lemma CertifiedOnceRead(c: Config, run: seq<State>, k: SessionId, q: set<NodeId>)
    requires ConfigOk(c) && IsRun(c, run) && q in c.quorums(c.local.runtime(k))
    requires var s := run[|run| - 1];
             && Root(c, s.ordered, k) != Root(c, s.ordered, k + 1)
             && forall n | n in q * c.honest :: n in s.nodes && ReadAll(c, s.ordered, s.nodes[n].readers, k)
    ensures Certified(c, run[|run| - 1], c.local.runtime(k), Root(c, run[|run| - 1].ordered, k + 1))
  {
    RunSigns(c, run);
    AllReadIsCertified(c, run[|run| - 1], k, q);
  }

  /** What a data store has sent on is let through from then on: the guard of `Read` is its promise. */
  lemma ReleasedIsAdmitted(events: seq<NaiveStore.Event>, k: nat, m: NaiveStore.Message, item: AlephData,
                           view: Headers, fin: Hash)
    requires NaiveStore.ClientGrows(events) && k < |events| && m in NaiveStore.Outs(events)[k] && item in m.blocks
    requires fin in view && NaiveStore.Grows(events[k].client, Client(view.Keys, view[fin].number))
    ensures Admitted(view, fin, item)
  {
    Availability.EmittedIsAvailable(events, k, m, item);
  }
}
