/**
 One session run by many nodes. Honest nodes read prefixes of one ordered list, each with its own growing view of
 the block tree; the others are unconstrained. What AlephBFT and the cryptography promise enters as assumptions:
 the list is common, and a complete multisignature holds at least one honest signature.
 */
module OneBranch {
  import opened BlockTree
  import opened SessionChain
  import opened PartialViews

  type NodeId = nat

  /** `root` is the last block of the previous session, `stop` the number of this session's last block. */
  datatype Config = Config(tree: Headers, root: Hash, stop: nat, honest: set<NodeId>, quorums: set<set<NodeId>>)

  ghost predicate ConfigOk(c: Config) {
    && Closed(c.tree) && c.root in c.tree && c.tree[c.root].number <= c.stop
    && forall q | q in c.quorums :: q * c.honest != {}
  }

  datatype Task = Idle | Running(start: Hash, read: nat, tip: Hash)

  /** An honest node: the headers it has imported, the block it has finalized, its aggregator task. */
  datatype Node = Node(headers: Headers, fin: Hash, task: Task)

  datatype State = State(items: seq<AlephData>, nodes: map<NodeId, Node>, signed: map<NodeId, set<Hash>>,
    certified: set<Hash>)

  datatype Action =
    | Order(item: AlephData)
    | Import(node: NodeId, headers: Headers)
    | Begin(node: NodeId)
    | Read(node: NodeId)
    | Certify(hash: Hash, quorum: set<NodeId>)
    | Finalize(node: NodeId, hash: Hash)

  ghost predicate Init(c: Config, s: State) {
    && s.items == [] && s.certified == {}
    && s.nodes.Keys == c.honest && s.signed.Keys == c.honest
    && forall n | n in c.honest ::
         && s.signed[n] == {}
         && Closed(s.nodes[n].headers) && s.nodes[n].headers.Items <= c.tree.Items
         && c.root in s.nodes[n].headers && s.nodes[n].fin == c.root && s.nodes[n].task == Idle
  }

  /** When an action can happen. */
  ghost predicate Enabled(c: Config, s: State, a: Action)
    requires s.nodes.Keys == s.signed.Keys
  {
    match a
    case Order(item) => true
    case Import(n, headers) =>
      n in s.nodes && s.nodes[n].headers.Items <= headers.Items && headers.Items <= c.tree.Items && Closed(headers)
    case Begin(n) => n in s.nodes
    case Read(n) =>
      // The next item, once the data store lets it through.
      && n in s.nodes && s.nodes[n].task.Running? && s.nodes[n].task.read < |s.items|
      && s.nodes[n].fin in s.nodes[n].headers && WellNumbered(s.nodes[n].headers)
      && Admitted(s.nodes[n].headers, s.nodes[n].fin, s.items[s.nodes[n].task.read])
    case Certify(h, q) =>
      // Every honest member of the quorum has signed; the others sign what they like.
      q in c.quorums && forall n | n in q * c.honest :: n in s.signed && h in s.signed[n]
    case Finalize(n, h) =>
      // The handler's test: verified, above the finalized number, and not above the session's end.
      && n in s.nodes && h in s.certified && h in s.nodes[n].headers && s.nodes[n].fin in s.nodes[n].headers
      && s.nodes[n].headers[s.nodes[n].fin].number < s.nodes[n].headers[h].number <= c.stop
  }

  /** The state after an enabled action. */
  ghost function Do(c: Config, s: State, a: Action): State
    requires s.nodes.Keys == s.signed.Keys && Enabled(c, s, a)
  {
    match a
    case Order(item) => s.(items := s.items + [item])
    case Import(n, headers) => s.(nodes := s.nodes[n := s.nodes[n].(headers := headers)])
    case Begin(n) => s.(nodes := s.nodes[n := s.nodes[n].(task := Running(s.nodes[n].fin, 0, s.nodes[n].fin))])
    case Read(n) =>
      var node := s.nodes[n];
      var item := s.items[node.task.read];
      var started := set h | h in Started(node.headers, c.stop, node.task.tip, item) :: h.hash;
      var tip := NextTip(node.headers, c.stop, node.task.tip, item);
      s.(nodes := s.nodes[n := node.(task := node.task.(read := node.task.read + 1, tip := tip))],
         signed := s.signed[n := s.signed[n] + started])
    case Certify(h, q) => s.(certified := s.certified + {h})
    case Finalize(n, h) => s.(nodes := s.nodes[n := s.nodes[n].(fin := h)])
  }

  ghost predicate Step(c: Config, s: State, t: State) {
    && s.nodes.Keys == s.signed.Keys
    && exists a :: Enabled(c, s, a) && t == Do(c, s, a)
  }

  ghost predicate StepAt(c: Config, run: seq<State>, i: nat)
    requires 0 < i < |run|
  {
    Step(c, run[i - 1], run[i])
  }

  ghost predicate IsRun(c: Config, run: seq<State>) {
    && run != [] && Init(c, run[0])
    && forall i {:trigger StepAt(c, run, i)} | 0 < i < |run| :: StepAt(c, run, i)
  }

  // ---- The invariant ----

  /** On the chain that the ordered items lead to so far, and within the session. */
  ghost predicate Good(c: Config, items: seq<AlephData>, h: Hash)
    requires ConfigOk(c)
  {
    OnChain(c.tree, c.stop, c.root, items, h) && c.tree[h].number <= c.stop
  }

  ghost predicate NodeInv(c: Config, items: seq<AlephData>, node: Node)
    requires ConfigOk(c)
  {
    && Closed(node.headers) && node.headers.Items <= c.tree.Items
    && node.fin in node.headers && Good(c, items, node.fin)
    && (node.task.Running? ==>
          && node.task.read <= |items| && node.task.tip in node.headers && Good(c, items, node.task.start)
          && node.task.tip == Tip(c.tree, c.stop, node.task.start, items[..node.task.read]))
  }

  ghost predicate Inv(c: Config, s: State)
    requires ConfigOk(c)
  {
    && s.nodes.Keys == c.honest && s.signed.Keys == c.honest
    && (forall n | n in s.nodes :: NodeInv(c, s.items, s.nodes[n]))
    && (forall n, h | n in s.signed && h in s.signed[n] :: Good(c, s.items, h))
    && (forall h | h in s.certified :: Good(c, s.items, h))
  }

  lemma GoodLater(c: Config, items: seq<AlephData>, more: seq<AlephData>, h: Hash)
    requires ConfigOk(c) && items <= more && Good(c, items, h)
    ensures Good(c, more, h)
  {
    TipDescends(c.tree, c.stop, c.root, more, |items|);
    assert more[..|items|] == items;
    DescendsTransitive(c.tree, h, Tip(c.tree, c.stop, c.root, items), Tip(c.tree, c.stop, c.root, more));
  }

  lemma RootIsGood(c: Config, items: seq<AlephData>)
    requires ConfigOk(c)
    ensures Good(c, items, c.root)
  {
    TipDescends(c.tree, c.stop, c.root, items, 0);
  }

  lemma BelowIsGood(c: Config, items: seq<AlephData>, tip: Hash, next: Hash, n: nat)
    requires ConfigOk(c) && Descends(c.tree, c.root, tip) && Descends(c.tree, tip, next) && Good(c, items, next)
    requires c.tree[tip].number <= n <= c.tree[next].number
    ensures Good(c, items, At(c.tree, next, n))
  {
    var hs, h := c.tree, At(c.tree, next, n);
    AtAt(hs, next, n, hs[tip].number);
    DescendsTransitive(hs, h, next, Tip(c.tree, c.stop, c.root, items));
    DescendsTransitive(hs, c.root, tip, h);
  }

  lemma PathIsGood(c: Config, items: seq<AlephData>, tip: Hash, next: Hash)
    requires ConfigOk(c) && Descends(c.tree, c.root, tip) && Descends(c.tree, tip, next) && Good(c, items, next)
    ensures forall h | h in Path(c.tree, tip, next) :: Good(c, items, h.hash)
  {
    forall h | h in Path(c.tree, tip, next) ensures Good(c, items, h.hash) {
      PathMember(c.tree, tip, next, h);
      BelowIsGood(c, items, tip, next, h.number);
    }
  }

  /** What a node builds from its start stays on the common chain. */
  lemma OwnTipIsGood(c: Config, items: seq<AlephData>, start: Hash, k: nat)
    requires ConfigOk(c) && Good(c, items, start) && k <= |items|
    ensures Good(c, items, Tip(c.tree, c.stop, start, items[..k]))
  {
    LateStarterAgrees(c.tree, c.stop, c.root, start, items, k);
    TipDescends(c.tree, c.stop, c.root, items, k);
    TipDescends(c.tree, c.stop, c.root, items[..k], k);
    assert items[..k][..k] == items[..k];
  }

  lemma TipOfNext(c: Config, start: Hash, items: seq<AlephData>, k: nat)
    requires WellNumbered(c.tree) && k < |items|
    ensures Tip(c.tree, c.stop, start, items[..k + 1]) ==
            NextTip(c.tree, c.stop, Tip(c.tree, c.stop, start, items[..k]), items[k])
  {
    assert items[..k + 1][..k] == items[..k];
  }

  /**
   A reader's next item: its tip stays the common list's. What the node has finalized need only be on one branch with
   where the list leads.
   */
  lemma NextFollowsList(c: Config, items: seq<AlephData>, headers: Headers, fin: Hash, start: Hash, k: nat)
    requires ConfigOk(c) && Closed(headers) && headers.Items <= c.tree.Items && fin in headers && fin in c.tree
    requires Comparable(c.tree, fin, Tip(c.tree, c.stop, c.root, items))
    requires Good(c, items, start) && k < |items| && Tip(c.tree, c.stop, start, items[..k]) in headers
    requires Admitted(headers, fin, items[k]) && KeepsStep(headers, c.stop, items[k])
    ensures var next := Tip(c.tree, c.stop, start, items[..k + 1]);
            next in headers && NextTip(headers, c.stop, Tip(c.tree, c.stop, start, items[..k]), items[k]) == next
  {
    var tip := Tip(c.tree, c.stop, start, items[..k]);
    TipOfNext(c, start, items, k);
    OwnTipIsGood(c, items, start, k + 1);
    InPart(headers, c.tree, tip);
    PartialViewStep(c.tree, headers, c.stop, tip, fin, items[k], Tip(c.tree, c.stop, c.root, items));
  }

  /** In this system what is finalized is on the chain and within the session. */
  lemma ReadFollowsList(c: Config, items: seq<AlephData>, node: Node)
    requires ConfigOk(c) && NodeInv(c, items, node) && node.task.Running? && node.task.read < |items|
    requires Admitted(node.headers, node.fin, items[node.task.read])
    ensures var next := NextTip(node.headers, c.stop, node.task.tip, items[node.task.read]);
            && next in node.headers
            && next == Tip(c.tree, c.stop, node.task.start, items[..node.task.read + 1])
  {
    InPart(node.headers, c.tree, node.fin);
    BoundKeepsStep(node.headers, node.fin, c.stop, items[node.task.read]);
    NextFollowsList(c, items, node.headers, node.fin, node.task.start, node.task.read);
  }

  lemma StartedIsGood(c: Config, items: seq<AlephData>, headers: Headers, tip: Hash, item: AlephData)
    requires ConfigOk(c) && Closed(headers) && headers.Items <= c.tree.Items && tip in headers
    requires Good(c, items, tip) && Good(c, items, NextTip(headers, c.stop, tip, item))
    ensures forall h | h in Started(headers, c.stop, tip, item) :: Good(c, items, h.hash)
  {
    var next := NextTip(headers, c.stop, tip, item);
    StepInTree(headers, c.stop, tip, item);
    PathInPart(headers, c.tree, tip, next);
    PathIsGood(c, items, tip, next);
  }

  /** All a node signs for an item lies on the common chain. */
  lemma ReadSignsGood(c: Config, items: seq<AlephData>, node: Node)
    requires ConfigOk(c) && NodeInv(c, items, node) && node.task.Running? && node.task.read < |items|
    requires Admitted(node.headers, node.fin, items[node.task.read])
    ensures forall h | h in Started(node.headers, c.stop, node.task.tip, items[node.task.read]) ::
            Good(c, items, h.hash)
  {
    var k := node.task.read;
    ReadFollowsList(c, items, node);
    OwnTipIsGood(c, items, node.task.start, k);
    OwnTipIsGood(c, items, node.task.start, k + 1);
    StartedIsGood(c, items, node.headers, node.task.tip, items[k]);
  }

  /** And it signs all of the path that the item takes it along. */
  lemma ReadSignsPath(c: Config, s: State, n: NodeId)
    requires ConfigOk(c) && Inv(c, s) && Enabled(c, s, Read(n))
    ensures var t := Do(c, s, Read(n));
            && n in t.nodes && t.nodes[n].task.Running? && n in t.signed
            && Descends(c.tree, s.nodes[n].task.tip, t.nodes[n].task.tip)
            && forall h | h in Path(c.tree, s.nodes[n].task.tip, t.nodes[n].task.tip) :: h.hash in t.signed[n]
  {
    var node := s.nodes[n];
    assert NodeInv(c, s.items, node);
    var item := s.items[node.task.read];
    StepInTree(node.headers, c.stop, node.task.tip, item);
    PathInPart(node.headers, c.tree, node.task.tip, NextTip(node.headers, c.stop, node.task.tip, item));
  }

  lemma NodeLater(c: Config, items: seq<AlephData>, more: seq<AlephData>, node: Node)
    requires ConfigOk(c) && items <= more && NodeInv(c, items, node)
    ensures NodeInv(c, more, node)
  {
    GoodLater(c, items, more, node.fin);
    if node.task.Running? {
      GoodLater(c, items, more, node.task.start);
      assert more[..node.task.read] == items[..node.task.read];
    }
  }

  lemma OrderKeepsInv(c: Config, s: State, item: AlephData)
    requires ConfigOk(c) && Inv(c, s)
    ensures Inv(c, Do(c, s, Order(item)))
  {
    var more := s.items + [item];
    forall h | Good(c, s.items, h) ensures Good(c, more, h) {
      GoodLater(c, s.items, more, h);
    }
    forall n | n in s.nodes ensures NodeInv(c, more, s.nodes[n]) {
      NodeLater(c, s.items, more, s.nodes[n]);
    }
  }

  lemma ImportKeepsNode(c: Config, items: seq<AlephData>, node: Node, headers: Headers)
    requires ConfigOk(c) && NodeInv(c, items, node)
    requires node.headers.Items <= headers.Items && headers.Items <= c.tree.Items && Closed(headers)
    ensures NodeInv(c, items, node.(headers := headers))
  {
    InPart(node.headers, headers, node.fin);
    if node.task.Running? {
      InPart(node.headers, headers, node.task.tip);
    }
  }

  /** One node's step keeps that node's invariant. */
  lemma NodeStepKeepsInv(c: Config, s: State, a: Action)
    requires ConfigOk(c) && Inv(c, s) && Enabled(c, s, a)
    requires a.Import? || a.Begin? || a.Read? || a.Finalize?
    ensures NodeInv(c, s.items, Do(c, s, a).nodes[a.node])
  {
    var node := s.nodes[a.node];
    assert NodeInv(c, s.items, node);
    match a
    case Import(n, headers) =>
      ImportKeepsNode(c, s.items, node, headers);
    case Begin(n) =>
    case Read(n) => ReadFollowsList(c, s.items, node);
    case Finalize(n, h) =>
  }

  lemma ReadKeepsInv(c: Config, s: State, n: NodeId)
    requires ConfigOk(c) && Inv(c, s) && Enabled(c, s, Read(n))
    ensures Inv(c, Do(c, s, Read(n)))
  {
    NodeStepKeepsInv(c, s, Read(n));
    assert NodeInv(c, s.items, s.nodes[n]);
    ReadSignsGood(c, s.items, s.nodes[n]);
  }

  lemma CertifyKeepsInv(c: Config, s: State, h: Hash, q: set<NodeId>)
    requires ConfigOk(c) && Inv(c, s) && Enabled(c, s, Certify(h, q))
    ensures Inv(c, Do(c, s, Certify(h, q)))
  {
    var n :| n in q * c.honest;
    assert h in s.signed[n];
  }

  lemma QuietKeepsInv(c: Config, s: State, a: Action)
    requires ConfigOk(c) && Inv(c, s) && Enabled(c, s, a)
    requires a.Import? || a.Begin? || a.Finalize?
    ensures Inv(c, Do(c, s, a))
  {
    NodeStepKeepsInv(c, s, a);
  }

  lemma StepKeepsInv(c: Config, s: State, t: State)
    requires ConfigOk(c) && Inv(c, s) && Step(c, s, t)
    ensures Inv(c, t)
  {
    var a :| Enabled(c, s, a) && t == Do(c, s, a);
    match a
    case Order(item) => OrderKeepsInv(c, s, item);
    case Certify(h, q) => CertifyKeepsInv(c, s, h, q);
    case Read(n) => ReadKeepsInv(c, s, n);
    case _ => QuietKeepsInv(c, s, a);
  }

  lemma {:induction false} RunKeepsInv(c: Config, run: seq<State>)
    requires ConfigOk(c) && IsRun(c, run)
    ensures Inv(c, run[|run| - 1])
  {
    if |run| == 1 {
      RootIsGood(c, []);
    } else {
      var before := run[..|run| - 1];
      forall i | 0 < i < |before| ensures StepAt(c, before, i) {
        assert StepAt(c, run, i);
      }
      RunKeepsInv(c, before);
      assert StepAt(c, run, |run| - 1);
      StepKeepsInv(c, run[|run| - 2], run[|run| - 1]);
    }
  }

  /** In every reachable state any two certified blocks of the session lie on one branch. */
  lemma OneBranchSafety(c: Config, run: seq<State>, a: Hash, b: Hash)
    requires ConfigOk(c) && IsRun(c, run)
    requires a in run[|run| - 1].certified && b in run[|run| - 1].certified
    ensures Descends(c.tree, a, b) || Descends(c.tree, b, a)
    ensures Descends(c.tree, c.root, a) && c.tree[a].number <= c.stop
  {
    RunKeepsInv(c, run);
    var s := run[|run| - 1];
    assert Good(c, s.items, a) && Good(c, s.items, b);
    var t := Tip(c.tree, c.stop, c.root, s.items);
    if c.tree[a].number <= c.tree[b].number {
      AncestorsAreOrdered(c.tree, a, b, t);
    } else {
      AncestorsAreOrdered(c.tree, b, a, t);
    }
  }

  /** So a session certifies at most one block at each height, its last one included. */
  lemma OneBlockPerHeight(c: Config, run: seq<State>, a: Hash, b: Hash)
    requires ConfigOk(c) && IsRun(c, run)
    requires a in run[|run| - 1].certified && b in run[|run| - 1].certified
    ensures a in c.tree && b in c.tree && (a == b <==> c.tree[a].number == c.tree[b].number)
  {
    OneBranchSafety(c, run, a, b);
  }
}
