/** The walk from new data back to the last finalized block (finalization.rs). */
module Finalization {
  import opened BlockTree

  datatype Walked = NoPath | Extension(headers: seq<Header>)

  /** Headers from just above `from` up to `hash`, following parent links down to `from`'s height. */
  function Walk(client: Headers, hash: Hash, from: Hash): Walked
    requires WellNumbered(client) && from in client
    decreases if hash in client then client[hash].number + 1 else 0
  {
    assert LinkOk(client, hash);
    if hash !in client then NoPath
    else if client[hash].number <= client[from].number then
      if hash == from then Extension([]) else NoPath
    else match Walk(client, client[hash].parent, from)
      case NoPath => NoPath
      case Extension(p) => Extension(p + [client[hash]])
  }

  /** What the walk computes, without the source's early return for `data.hash == from`. */
  function ChainExtension(client: Headers, from: Hash, data: AlephData): seq<Header>
    requires WellNumbered(client)
  {
    if from !in client || data.hash !in client || client[data.hash].number != data.number then []
    else match Walk(client, data.hash, from)
      case NoPath => []
      case Extension(p) => p
  }

  /** The source's loop. Equality with `ChainExtension` shows its early return changes nothing. */
  method ChainExtensionStep(lastFinalized: Hash, newData: AlephData, client: Headers)
    returns (extension: seq<Header>)
    requires WellNumbered(client)
    ensures extension == ChainExtension(client, lastFinalized, newData)
  {
    if newData.hash == lastFinalized {
      return [];
    }
    if lastFinalized !in client {
      return [];
    }
    var lastFinalizedNumber := client[lastFinalized].number;
    if newData.hash !in client {
      return [];
    }
    if client[newData.hash].number != newData.number {
      return [];
    }

    extension := [];
    var hash := newData.hash;
    while true
      invariant Walk(client, newData.hash, lastFinalized) ==
                match Walk(client, hash, lastFinalized)
                case NoPath => NoPath
                case Extension(p) => Extension(p + extension)
      decreases if hash in client then client[hash].number + 1 else 0
    {
      if hash !in client {
        return [];
      }
      var header := client[hash];
      assert LinkOk(client, hash);
      if header.number <= lastFinalizedNumber {
        if hash != lastFinalized {
          return [];
        }
        break;
      }
      ghost var before := extension;
      hash := header.parent;
      extension := [header] + extension;
      assert forall p: seq<Header> {:trigger p + extension} :: (p + [header]) + before == p + extension;
    }
    assert [] + extension == extension;
  }

  /** `p` is a parent-linked run of known headers, numbered one by one, that starts on top of `from`. */
  ghost predicate IsChain(client: Headers, from: Hash, p: seq<Header>) {
    from in client && forall i {:trigger p[i]} | 0 <= i < |p| :: Linked(client, from, p, i)
  }

  ghost predicate Linked(client: Headers, from: Hash, p: seq<Header>, i: nat)
    requires i < |p| && from in client
  {
    && p[i].hash in client
    && client[p[i].hash] == p[i]
    && p[i].number == client[from].number + 1 + i
    && p[i].parent == if i == 0 then from else p[i - 1].hash
  }

  lemma ChainPrefix(client: Headers, from: Hash, p: seq<Header>, q: seq<Header>, h: Header)
    requires p == q + [h]
    ensures IsChain(client, from, p) <==>
            IsChain(client, from, q) && from in client && Linked(client, from, p, |q|)
  {
    if from in client {
      forall i | 0 <= i < |q| ensures Linked(client, from, p, i) <==> Linked(client, from, q, i) {
        assert p[i] == q[i];
      }
      assert IsChain(client, from, p) ==> forall i | 0 <= i < |q| :: p[i] == q[i] && Linked(client, from, q, i);
    }
  }

  ghost predicate EndsAt(p: seq<Header>, data: AlephData) {
    p != [] && p[|p| - 1].hash == data.hash && p[|p| - 1].number == data.number
  }

  lemma {:induction false} WalkFindsChain(client: Headers, from: Hash, p: seq<Header>)
    requires WellNumbered(client) && IsChain(client, from, p)
    ensures Walk(client, if p == [] then from else p[|p| - 1].hash, from) == Extension(p)
  {
    if p == [] {
    } else {
      var q, h := p[..|p| - 1], p[|p| - 1];
      assert p == q + [h];
      ChainPrefix(client, from, p, q, h);
      WalkFindsChain(client, from, q);
    }
  }

  lemma {:induction false} WalkIsChain(client: Headers, hash: Hash, from: Hash)
    requires WellNumbered(client) && from in client && Walk(client, hash, from).Extension?
    ensures var p := Walk(client, hash, from).headers;
            && IsChain(client, from, p)
            && hash == (if p == [] then from else p[|p| - 1].hash)
            && client[hash].number == client[from].number + |p|
    decreases if hash in client then client[hash].number + 1 else 0
  {
    assert LinkOk(client, hash);
    if client[hash].number > client[from].number {
      WalkIsChain(client, client[hash].parent, from);
      var q := Walk(client, client[hash].parent, from).headers;
      ChainPrefix(client, from, q + [client[hash]], q, client[hash]);
    }
  }

  /** The walk is exact: a non-empty result is the one chain from `from` to the data, and any such chain is found. */
  lemma ChainExtensionExact(client: Headers, from: Hash, data: AlephData, p: seq<Header>)
    requires WellNumbered(client)
    ensures p != [] && ChainExtension(client, from, data) == p
            <==> IsChain(client, from, p) && EndsAt(p, data)
  {
    if IsChain(client, from, p) && EndsAt(p, data) {
      WalkFindsChain(client, from, p);
    }
    if p != [] && ChainExtension(client, from, data) == p {
      WalkIsChain(client, data.hash, from);
    }
  }

  /** The data names a known block by its right number, and the block is `from` or above it. */
  ghost predicate Extends(client: Headers, from: Hash, data: AlephData)
    requires Closed(client)
  {
    && data.hash in client
    && client[data.hash].number == data.number
    && Descends(client, from, data.hash)
  }

  lemma {:induction false} PathIsChain(client: Headers, from: Hash, to: Hash)
    requires Closed(client) && Descends(client, from, to)
    ensures IsChain(client, from, Path(client, from, to))
    ensures from != to ==>
              var p := Path(client, from, to); p != [] && p[|p| - 1] == client[to]
    decreases client[to].number
  {
    assert LinkOk(client, to) && HasParent(client, to);
    if from != to {
      var q := Path(client, from, client[to].parent);
      PathIsChain(client, from, client[to].parent);
      assert LinkOk(client, client[to].parent);
      assert Linked(client, from, q + [client[to]], |q|);
      ChainPrefix(client, from, q + [client[to]], q, client[to]);
    }
  }

  lemma {:induction false} ChainDescends(client: Headers, from: Hash, p: seq<Header>)
    requires Closed(client) && IsChain(client, from, p) && p != []
    ensures Descends(client, from, p[|p| - 1].hash)
  {
    var q, last := p[..|p| - 1], p[|p| - 1];
    assert p == q + [last];
    ChainPrefix(client, from, p, q, last);
    assert LinkOk(client, last.hash) && HasParent(client, last.hash) && LinkOk(client, from);
    if q == [] {
      assert At(client, from, client[from].number) == from;
    } else {
      ChainDescends(client, from, q);
      assert At(client, last.parent, client[from].number) == from;
    }
  }

  /** In an ancestor-closed store the walk returns the path to the data exactly when the data extends `from`. */
  lemma ChainExtensionInTree(client: Headers, from: Hash, data: AlephData)
    requires Closed(client)
    ensures ChainExtension(client, from, data) ==
            if Extends(client, from, data) then Path(client, from, data.hash) else []
  {
    var r := ChainExtension(client, from, data);
    if Extends(client, from, data) && from != data.hash {
      PathIsChain(client, from, data.hash);
      assert LinkOk(client, data.hash);
      ChainExtensionExact(client, from, data, Path(client, from, data.hash));
    } else if r != [] {
      ChainExtensionExact(client, from, data, r);
      ChainDescends(client, from, r);
    }
  }
}
