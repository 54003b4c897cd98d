/** The block headers a Substrate client holds, seen as a tree of parent links. */
module BlockTree {

  type Hash = nat

  datatype Header = Header(hash: Hash, parent: Hash, number: nat)

  /** A block as AlephBFT data names it: the number is a claim, checked only by the chain walk. */
  datatype AlephData = AlephData(hash: Hash, number: nat)

  /** What a client answers about the availability of blocks. */
  datatype Client = Client(known: set<Hash>, finalized: nat)

  /** The data store's test: the block is known, or too low to matter. */
  predicate Available(client: Client, b: AlephData)
  {
    b.hash in client.known || client.finalized >= b.number
  }

  /** The headers one client knows. */
  type Headers = map<Hash, Header>

  // The named predicate keeps the quantifier below from chasing parent links on its own.
  predicate LinkOk(hs: Headers, h: Hash)
  {
    h in hs ==>
      && hs[h].hash == h
      && (hs[h].number > 0 && hs[h].parent in hs ==> hs[hs[h].parent].number + 1 == hs[h].number)
  }

  /** Headers carry their own hash, and a known parent is one block lower. */
  ghost predicate WellNumbered(hs: Headers) {
    forall h {:trigger LinkOk(hs, h)} :: LinkOk(hs, h)
  }

  predicate HasParent(hs: Headers, h: Hash)
  {
    h in hs && hs[h].number > 0 ==> hs[h].parent in hs
  }

  /** A client's store: blocks are imported parent first, so it is closed under ancestors. */
  ghost predicate Closed(hs: Headers) {
    && WellNumbered(hs)
    && forall h {:trigger HasParent(hs, h)} :: HasParent(hs, h)
  }

  /** The ancestor of `h` at height `n`. */
  ghost function At(hs: Headers, h: Hash, n: nat): (a: Hash)
    requires Closed(hs) && h in hs && n <= hs[h].number
    ensures a in hs && hs[a].number == n && hs[a].hash == a
    decreases hs[h].number
  {
    assert LinkOk(hs, h) && HasParent(hs, h);
    if hs[h].number == n then h else At(hs, hs[h].parent, n)
  }

  /** `b` is `a` or a descendant of it. */
  ghost predicate Descends(hs: Headers, a: Hash, b: Hash)
    requires Closed(hs)
  {
    a in hs && b in hs && hs[a].number <= hs[b].number && At(hs, b, hs[a].number) == a
  }

  lemma {:induction false} AtAt(hs: Headers, h: Hash, m: nat, n: nat)
    requires Closed(hs) && h in hs && n <= m <= hs[h].number
    ensures At(hs, At(hs, h, m), n) == At(hs, h, n)
    decreases hs[h].number
  {
    assert LinkOk(hs, h) && HasParent(hs, h);
    if m < hs[h].number {
      AtAt(hs, hs[h].parent, m, n);
    }
  }

  lemma DescendsTransitive(hs: Headers, a: Hash, b: Hash, c: Hash)
    requires Closed(hs) && Descends(hs, a, b) && Descends(hs, b, c)
    ensures Descends(hs, a, c)
  {
    AtAt(hs, c, hs[b].number, hs[a].number);
  }

  /** The ancestors of one block are ordered by their numbers. */
  lemma AncestorsAreOrdered(hs: Headers, a: Hash, b: Hash, c: Hash)
    requires Closed(hs) && Descends(hs, a, c) && Descends(hs, b, c)
    requires hs[a].number <= hs[b].number
    ensures Descends(hs, a, b)
  {
    AtAt(hs, c, hs[b].number, hs[a].number);
  }

  /** A closed part of a tree has the tree's own ancestors. */
  lemma {:induction false} AtInPart(part: Headers, hs: Headers, h: Hash, n: nat)
    requires Closed(part) && Closed(hs) && part.Items <= hs.Items
    requires h in part && n <= part[h].number
    ensures h in hs && hs[h] == part[h] && At(part, h, n) == At(hs, h, n)
    decreases part[h].number
  {
    InPart(part, hs, h);
    assert LinkOk(part, h) && HasParent(part, h);
    if n < part[h].number {
      AtInPart(part, hs, part[h].parent, n);
    }
  }

  lemma InPart(part: Headers, hs: Headers, h: Hash)
    requires part.Items <= hs.Items && h in part
    ensures h in hs && hs[h] == part[h]
  {
    assert (h, part[h]) in part.Items;
  }

  lemma DescendsInPart(part: Headers, hs: Headers, a: Hash, b: Hash)
    requires Closed(part) && Closed(hs) && part.Items <= hs.Items
    requires a in part && b in part
    ensures a in hs && b in hs && (Descends(part, a, b) <==> Descends(hs, a, b))
  {
    InPart(part, hs, a);
    InPart(part, hs, b);
    if part[a].number <= part[b].number {
      AtInPart(part, hs, b, part[a].number);
    }
  }

  /** An ancestor of a block in a closed part is in the part too. */
  lemma AncestorInPart(part: Headers, hs: Headers, a: Hash, b: Hash)
    requires Closed(part) && Closed(hs) && part.Items <= hs.Items
    requires b in part && Descends(hs, a, b)
    ensures a in part && Descends(part, a, b)
  {
    InPart(part, hs, b);
    AtInPart(part, hs, b, hs[a].number);
  }

  /** The headers from just above `a` up to `b`. */
  ghost function Path(hs: Headers, a: Hash, b: Hash): (p: seq<Header>)
    requires Closed(hs) && Descends(hs, a, b)
    ensures |p| == hs[b].number - hs[a].number
    decreases hs[b].number
  {
    assert LinkOk(hs, b) && HasParent(hs, b);
    if a == b then [] else Path(hs, a, hs[b].parent) + [hs[b]]
  }

  /** Block number k of the path is the ancestor of its end at that height. */
  lemma {:induction false} PathAt(hs: Headers, a: Hash, b: Hash, k: nat)
    requires Closed(hs) && Descends(hs, a, b) && k < hs[b].number - hs[a].number
    ensures Path(hs, a, b)[k] == hs[At(hs, b, hs[a].number + 1 + k)]
    decreases hs[b].number
  {
    assert LinkOk(hs, b) && HasParent(hs, b);
    if k < hs[b].number - hs[a].number - 1 {
      PathAt(hs, a, hs[b].parent, k);
    }
  }

  lemma PathMember(hs: Headers, a: Hash, b: Hash, h: Header)
    requires Closed(hs) && Descends(hs, a, b) && h in Path(hs, a, b)
    ensures hs[a].number < h.number <= hs[b].number && h.hash == At(hs, b, h.number)
  {
    var i :| 0 <= i < |Path(hs, a, b)| && Path(hs, a, b)[i] == h;
    PathAt(hs, a, b, i);
  }

  /** And every block above `a`, up to `b`, is on the path. */
  lemma PathHas(hs: Headers, a: Hash, b: Hash, h: Hash)
    requires Closed(hs) && Descends(hs, a, h) && a != h && Descends(hs, h, b)
    ensures Descends(hs, a, b) && hs[h] in Path(hs, a, b) && hs[h].hash == h
  {
    DescendsTransitive(hs, a, h, b);
    var i := hs[h].number - hs[a].number - 1;
    PathAt(hs, a, b, i);
    assert Path(hs, a, b)[i] == hs[h];
  }

  lemma PathsJoinAt(hs: Headers, a: Hash, b: Hash, c: Hash, k: nat)
    requires Closed(hs) && Descends(hs, a, b) && Descends(hs, b, c) && Descends(hs, a, c)
    requires k < hs[c].number - hs[a].number
    ensures Path(hs, a, c)[k] == (Path(hs, a, b) + Path(hs, b, c))[k]
  {
    var low := hs[b].number - hs[a].number;
    PathAt(hs, a, c, k);
    if k < low {
      PathAt(hs, a, b, k);
      AtAt(hs, c, hs[b].number, hs[a].number + 1 + k);
    } else {
      PathAt(hs, b, c, k - low);
    }
  }

  lemma PathsJoin(hs: Headers, a: Hash, b: Hash, c: Hash)
    requires Closed(hs) && Descends(hs, a, b) && Descends(hs, b, c)
    ensures Descends(hs, a, c) && Path(hs, a, c) == Path(hs, a, b) + Path(hs, b, c)
  {
    DescendsTransitive(hs, a, b, c);
    forall k | 0 <= k < |Path(hs, a, c)| ensures Path(hs, a, c)[k] == (Path(hs, a, b) + Path(hs, b, c))[k] {
      PathsJoinAt(hs, a, b, c, k);
    }
  }

  lemma PathInPart(part: Headers, hs: Headers, a: Hash, b: Hash)
    requires Closed(part) && Closed(hs) && part.Items <= hs.Items && Descends(part, a, b)
    ensures Descends(hs, a, b) && Path(part, a, b) == Path(hs, a, b)
  {
    DescendsInPart(part, hs, a, b);
    InPart(part, hs, a);
    InPart(part, hs, b);
    forall k | 0 <= k < |Path(hs, a, b)| ensures Path(part, a, b)[k] == Path(hs, a, b)[k] {
      PathAt(part, a, b, k);
      PathAt(hs, a, b, k);
      AtInPart(part, hs, b, hs[a].number + 1 + k);
      InPart(part, hs, At(part, b, hs[a].number + 1 + k));
    }
  }
}
