/** The two-way index between peers and the nodes they run, session by session (`Peers`, network.rs). */
module Peers {
  import opened Sessions

  type PeerId = nat
  type NodeIndex = nat

  datatype Index = Index(
    allPeers: map<PeerId, map<SessionId, NodeIndex>>,
    toPeer: map<SessionId, map<NodeIndex, PeerId>>)

  const NO_PEERS := Index(map[], map[])

  /** The peer's own record says it is this node of the session. */
  predicate Binds(ix: Index, p: PeerId, s: SessionId, n: NodeIndex)
  {
    p in ix.allPeers && s in ix.allPeers[p] && ix.allPeers[p][s] == n
  }

  /** The session's table sends to this node through the peer. */
  predicate Points(ix: Index, s: SessionId, n: NodeIndex, p: PeerId)
  {
    s in ix.toPeer && n in ix.toPeer[s] && ix.toPeer[s][n] == p
  }

  predicate IsAuthenticated(ix: Index, p: PeerId, s: SessionId)
  {
    p in ix.allPeers && s in ix.allPeers[p]
  }

  /** A new record, whatever was there. */
  function Inserted(ix: Index, p: PeerId): Index
  {
    ix.(allPeers := ix.allPeers[p := map[]])
  }

  function Record(ix: Index, p: PeerId): map<SessionId, NodeIndex>
  {
    if p in ix.allPeers then ix.allPeers[p] else map[]
  }

  function Table(ix: Index, s: SessionId): map<NodeIndex, PeerId>
  {
    if s in ix.toPeer then ix.toPeer[s] else map[]
  }

  function Authenticated(ix: Index, p: PeerId, s: SessionId, n: NodeIndex): Index
  {
    Index(ix.allPeers[p := Record(ix, p)[s := n]], ix.toPeer[s := Table(ix, s)[n := p]])
  }

  /** Table `s` without the nodes that the given records name. */
  function Cleared(table: map<NodeIndex, PeerId>, record: map<SessionId, NodeIndex>, s: SessionId)
    : map<NodeIndex, PeerId>
  {
    if s in record then table - {record[s]} else table
  }

  function Removed(ix: Index, p: PeerId): Index
  {
    Index(ix.allPeers - {p},
          map s | s in ix.toPeer && Cleared(ix.toPeer[s], Record(ix, p), s) != map[] ::
            Cleared(ix.toPeer[s], Record(ix, p), s))
  }

  class Peers {
    var allPeers: map<PeerId, map<SessionId, NodeIndex>>
    var toPeer: map<SessionId, map<NodeIndex, PeerId>>

    function Ix(): Index
      reads this
    {
      Index(allPeers, toPeer)
    }

    constructor ()
      ensures Ix() == NO_PEERS
    {
      allPeers, toPeer := map[], map[];
    }

    method Insert(peer: PeerId)
      modifies this
      ensures Ix() == Inserted(old(Ix()), peer)
    {
      allPeers := allPeers[peer := map[]];
    }

    method Authenticate(peer: PeerId, session: SessionId, node: NodeIndex)
      modifies this
      ensures Ix() == Authenticated(old(Ix()), peer, session, node)
    {
      if peer !in allPeers {
        Insert(peer);
      }
      var record: map<SessionId, NodeIndex> := allPeers[peer][session := node];
      allPeers := allPeers[peer := record];
      if session !in toPeer {
        toPeer := toPeer[session := map[]];
      }
      var table: map<NodeIndex, PeerId> := toPeer[session][node := peer];
      toPeer := toPeer[session := table];
    }

    /** The loop of `remove`: the peer's nodes leave their sessions' tables. */
    method ClearRecord(record: map<SessionId, NodeIndex>)
      modifies `toPeer
      ensures toPeer == map s | s in old(toPeer) :: Cleared(old(toPeer)[s], record, s)
    {
      var sessions := record.Keys;
      while sessions != {}
        invariant sessions <= record.Keys
        invariant toPeer == map s | s in old(toPeer) ::
                  if s in sessions then old(toPeer)[s] else Cleared(old(toPeer)[s], record, s)
      {
        var session :| session in sessions;
        sessions := sessions - {session};
        if session in toPeer {
          toPeer := toPeer[session := toPeer[session] - {record[session]}];
        }
      }
    }

    method Remove(peer: PeerId)
      modifies this
      ensures Ix() == Removed(old(Ix()), peer)
    {
      ghost var ix := Ix();
      if peer in allPeers {
        var record := allPeers[peer];
        allPeers := allPeers - {peer};
        ClearRecord(record);
      }
      assert allPeers == ix.allPeers - {peer};
      assert toPeer == map s | s in ix.toPeer :: Cleared(ix.toPeer[s], Record(ix, peer), s);
      toPeer := map s | s in toPeer && toPeer[s] != map[] :: toPeer[s];
    }
  }

  // ---- When the two halves mirror each other ----

  /** The two maps are exact inverses, and no table is empty. */
  ghost predicate Mirrored(ix: Index) {
    && (forall p, s, n :: Binds(ix, p, s, n) <==> Points(ix, s, n, p))
    && (forall s | s in ix.toPeer :: ix.toPeer[s] != map[])
  }

  datatype Change = Connect(peer: PeerId) | Verify(peer: PeerId, session: SessionId, node: NodeIndex)
    | Disconnect(peer: PeerId)

  function Apply(ix: Index, c: Change): Index
  {
    match c
    case Connect(p) => Inserted(ix, p)
    case Verify(p, s, n) => Authenticated(ix, p, s, n)
    case Disconnect(p) => Removed(ix, p)
  }

  /**
   A connect hits a peer with no bindings; a verified authentication rebinds neither the peer nor the node within
   the session.
   */
  predicate WellBehaved(ix: Index, c: Change)
  {
    match c
    case Connect(p) => Record(ix, p) == map[]
    case Verify(p, s, n) =>
      && (s in Record(ix, p) ==> Record(ix, p)[s] == n)
      && (n in Table(ix, s) ==> Table(ix, s)[n] == p)
    case Disconnect(p) => true
  }

  lemma ConnectMirrors(ix: Index, p: PeerId)
    requires Mirrored(ix)
    ensures Mirrored(Inserted(ix, p)) <==> Record(ix, p) == map[]
  {
    var t := Inserted(ix, p);
    if Record(ix, p) == map[] {
      assert forall q, s, n :: Binds(t, q, s, n) <==> Binds(ix, q, s, n);
      assert forall q, s, n :: Points(t, s, n, q) <==> Points(ix, s, n, q);
    } else {
      var s :| s in Record(ix, p);
      assert Binds(ix, p, s, Record(ix, p)[s]);
      assert Points(t, s, Record(ix, p)[s], p) && !Binds(t, p, s, Record(ix, p)[s]);
    }
  }

  lemma VerifyMirrors(ix: Index, p: PeerId, s: SessionId, n: NodeIndex)
    requires Mirrored(ix)
    ensures Mirrored(Authenticated(ix, p, s, n)) <==> WellBehaved(ix, Verify(p, s, n))
  {
    var t := Authenticated(ix, p, s, n);
    if WellBehaved(ix, Verify(p, s, n)) {
      forall q, r, m ensures Binds(t, q, r, m) <==> Points(t, r, m, q) {
        assert Binds(ix, q, r, m) <==> Points(ix, r, m, q);
        assert Binds(ix, p, r, m) <==> Points(ix, r, m, p);
        assert Binds(ix, q, s, n) <==> Points(ix, s, n, q);
      }
      forall r | r in t.toPeer ensures t.toPeer[r] != map[] {
        assert n in t.toPeer[s];
      }
    } else if s in Record(ix, p) && Record(ix, p)[s] != n {
      var m := Record(ix, p)[s];
      assert Binds(ix, p, s, m);
      assert Points(t, s, m, p) && !Binds(t, p, s, m);
    } else {
      var q := Table(ix, s)[n];
      assert Points(ix, s, n, q);
      assert Binds(t, q, s, n) && !Points(t, s, n, q);
    }
  }

  lemma DisconnectMirrors(ix: Index, p: PeerId)
    requires Mirrored(ix)
    ensures Mirrored(Removed(ix, p))
    ensures p !in Removed(ix, p).allPeers && forall s, n :: !Points(Removed(ix, p), s, n, p)
    ensures forall q, s, n | q != p :: Points(Removed(ix, p), s, n, q) <==> Points(ix, s, n, q)
  {
    var t := Removed(ix, p);
    forall q, s, n
      ensures Points(t, s, n, q) <==> q != p && Points(ix, s, n, q)
      ensures Binds(t, q, s, n) <==> q != p && Binds(ix, q, s, n)
    {
      assert Binds(ix, q, s, n) <==> Points(ix, s, n, q);
      assert Binds(ix, p, s, n) <==> Points(ix, s, n, p);
      if s in ix.toPeer && n in Cleared(ix.toPeer[s], Record(ix, p), s) {
        assert Cleared(ix.toPeer[s], Record(ix, p), s) != map[];
      }
    }
  }

  /** What each change does to the peers' records, mirrored or not. */
  lemma BindsAfter(ix: Index, c: Change, p: PeerId, s: SessionId, n: NodeIndex)
    ensures Binds(Apply(ix, c), p, s, n) <==>
            match c
            case Connect(q) => q != p && Binds(ix, p, s, n)
            case Verify(q, r, m) => if q == p && r == s then m == n else Binds(ix, p, s, n)
            case Disconnect(q) => q != p && Binds(ix, p, s, n)
  {
  }

  /** And to the sessions' tables: only a verification adds, and only the leaving of a peer bound to the node clears. */
  lemma PointsAfter(ix: Index, c: Change, s: SessionId, n: NodeIndex, p: PeerId)
    ensures Points(Apply(ix, c), s, n, p) <==>
            match c
            case Connect(q) => Points(ix, s, n, p)
            case Verify(q, r, m) => if r == s && m == n then q == p else Points(ix, s, n, p)
            case Disconnect(q) => Points(ix, s, n, p) && !Binds(ix, q, s, n)
  {
    if c.Disconnect? && s in ix.toPeer && n in Cleared(ix.toPeer[s], Record(ix, c.peer), s) {
      assert Cleared(ix.toPeer[s], Record(ix, c.peer), s) != map[];
    }
  }

  /** A peer is known from when it connects, or first proves to be a node, until it leaves. */
  lemma KnownAfter(ix: Index, c: Change, p: PeerId)
    ensures p in Apply(ix, c).allPeers <==> if c.peer == p then !c.Disconnect? else p in ix.allPeers
  {
  }

  function AfterChanges(changes: seq<Change>): Index
  {
    if changes == [] then NO_PEERS else Apply(AfterChanges(changes[..|changes| - 1]), changes[|changes| - 1])
  }

  lemma ChangeMirrors(ix: Index, c: Change)
    requires Mirrored(ix)
    ensures Mirrored(Apply(ix, c)) <==> WellBehaved(ix, c)
  {
    match c
    case Connect(p) => ConnectMirrors(ix, p);
    case Verify(p, s, n) => VerifyMirrors(ix, p, s, n);
    case Disconnect(p) => DisconnectMirrors(ix, p);
  }

  /** The index was mirrored at the start and after every change. */
  ghost predicate AlwaysMirrored(changes: seq<Change>) {
    && Mirrored(AfterChanges(changes))
    && (changes != [] ==> AlwaysMirrored(changes[..|changes| - 1]))
  }

  /** Every change was well behaved when it came. */
  predicate AllWellBehaved(changes: seq<Change>)
  {
    changes != [] ==>
      && AllWellBehaved(changes[..|changes| - 1])
      && WellBehaved(AfterChanges(changes[..|changes| - 1]), changes[|changes| - 1])
  }

  /** The two halves mirror each other all through a run exactly when every change of the run is well behaved. */
  lemma {:induction false} MirroredIffWellBehaved(changes: seq<Change>)
    ensures AlwaysMirrored(changes) <==> AllWellBehaved(changes)
  {
    if changes != [] {
      var before := changes[..|changes| - 1];
      MirroredIffWellBehaved(before);
      if AlwaysMirrored(before) {
        ChangeMirrors(AfterChanges(before), changes[|changes| - 1]);
      }
    }
  }

  lemma AfterMore(changes: seq<Change>, c: Change)
    ensures AfterChanges(changes + [c]) == Apply(AfterChanges(changes), c)
  {
    assert (changes + [c])[..|changes|] == changes;
  }

  /** Not well behaved: a peer that connects again while bound, and then leaves, is still in its session's table. */
  lemma ReconnectLeavesAReference(p: PeerId, s: SessionId, n: NodeIndex)
    ensures var ix := AfterChanges([Verify(p, s, n), Connect(p), Disconnect(p)]);
            p !in ix.allPeers && Points(ix, s, n, p)
  {
    AfterMore([], Verify(p, s, n));
    assert [] + [Verify(p, s, n)] == [Verify(p, s, n)];
    AfterMore([Verify(p, s, n)], Connect(p));
    AfterMore([Verify(p, s, n), Connect(p)], Disconnect(p));
    assert [Verify(p, s, n)] + [Connect(p)] == [Verify(p, s, n), Connect(p)];
    assert [Verify(p, s, n), Connect(p)] + [Disconnect(p)] == [Verify(p, s, n), Connect(p), Disconnect(p)];
    var two := Inserted(Authenticated(NO_PEERS, p, s, n), p);
    assert n in Cleared(two.toPeer[s], Record(two, p), s);
  }
}
