/**
 How one session's ordered data moves `last_finalized` (the nested loops of `run_aggregator`, party.rs):
 the meaning of one item, the whole list, and why nodes that start apart still agree.
 */
module SessionChain {
  import opened BlockTree
  import opened Finalization

  /** The inner loop over an extension: take headers up to the session's last block, stop on reaching it. */
  function Taken(ext: seq<Header>, stop: nat): seq<Header>
  {
    if ext == [] || ext[0].number > stop then []
    else if ext[0].number == stop then [ext[0]]
    else [ext[0]] + Taken(ext[1..], stop)
  }

  /** The headers whose aggregation one item starts. */
  function Started(view: Headers, stop: nat, tip: Hash, item: AlephData): seq<Header>
    requires WellNumbered(view)
  {
    Taken(ChainExtension(view, tip, item), stop)
  }

  /** `last_finalized` after one item. */
  function NextTip(view: Headers, stop: nat, tip: Hash, item: AlephData): Hash
    requires WellNumbered(view)
  {
    var s := Started(view, stop, tip, item);
    if s == [] then tip else s[|s| - 1].hash
  }

  /** `last_finalized` after a list of items. */
  function Tip(hs: Headers, stop: nat, start: Hash, items: seq<AlephData>): Hash
    requires WellNumbered(hs)
  {
    if items == [] then start
    else NextTip(hs, stop, Tip(hs, stop, start, items[..|items| - 1]), items[|items| - 1])
  }

  // ---- What one item means ----

  function Min(a: nat, b: nat): nat { if a < b then a else b }

  /** An item moves the tip exactly when it names a block above it, and then to that block or the session's end. */
  ghost function Advance(hs: Headers, stop: nat, tip: Hash, item: AlephData): Hash
    requires Closed(hs) && tip in hs
  {
    if Extends(hs, tip, item) && hs[tip].number < stop then At(hs, item.hash, Min(stop, item.number)) else tip
  }

  lemma {:induction false} TakenOfNumbered(ext: seq<Header>, base: nat, stop: nat)
    requires forall i | 0 <= i < |ext| :: ext[i].number == base + 1 + i
    ensures Taken(ext, stop) == if stop <= base then [] else ext[..Min(stop - base, |ext|)]
  {
    if ext != [] && ext[0].number < stop {
      assert forall i | 0 <= i < |ext[1..]| :: ext[1..][i] == ext[i + 1];
      TakenOfNumbered(ext[1..], base + 1, stop);
    }
  }

  lemma TakenOfPath(hs: Headers, stop: nat, tip: Hash, item: AlephData)
    requires Closed(hs) && Extends(hs, tip, item)
    ensures Taken(Path(hs, tip, item.hash), stop) ==
            if stop <= hs[tip].number then [] else Path(hs, tip, item.hash)[..Min(stop, item.number) - hs[tip].number]
  {
    var path := Path(hs, tip, item.hash);
    forall i | 0 <= i < |path| ensures path[i].number == hs[tip].number + 1 + i {
      PathAt(hs, tip, item.hash, i);
    }
    TakenOfNumbered(path, hs[tip].number, stop);
  }

  /** A path cut at one of its heights is the path to the block there. */
  lemma PathCut(hs: Headers, tip: Hash, to: Hash, n: nat)
    requires Closed(hs) && Descends(hs, tip, to) && hs[tip].number <= n <= hs[to].number
    ensures Descends(hs, tip, At(hs, to, n))
    ensures Path(hs, tip, to)[..n - hs[tip].number] == Path(hs, tip, At(hs, to, n))
  {
    var next := At(hs, to, n);
    AtAt(hs, to, n, hs[tip].number);
    PathsJoin(hs, tip, next, to);
  }

  lemma PathEnd(hs: Headers, tip: Hash, next: Hash)
    requires Closed(hs) && Descends(hs, tip, next)
    ensures var p := Path(hs, tip, next); next == if p == [] then tip else p[|p| - 1].hash
  {
    assert LinkOk(hs, next);
    if tip != next {
      PathIsChain(hs, tip, next);
    }
  }

  /** In an ancestor-closed store the code's step is `Advance`, and it starts exactly the path in between. */
  lemma StepInTree(hs: Headers, stop: nat, tip: Hash, item: AlephData)
    requires Closed(hs) && tip in hs
    ensures var next := Advance(hs, stop, tip, item);
            && NextTip(hs, stop, tip, item) == next
            && Descends(hs, tip, next)
            && Started(hs, stop, tip, item) == Path(hs, tip, next)
            && (hs[next].number <= stop || next == tip)
  {
    ChainExtensionInTree(hs, tip, item);
    var next := Advance(hs, stop, tip, item);
    if Extends(hs, tip, item) {
      TakenOfPath(hs, stop, tip, item);
      if hs[tip].number < stop {
        PathCut(hs, tip, item.hash, Min(stop, item.number));
      }
    }
    PathEnd(hs, tip, next);
  }

  lemma {:induction false} TipDescends(hs: Headers, stop: nat, start: Hash, items: seq<AlephData>, k: nat)
    requires Closed(hs) && start in hs && k <= |items|
    ensures Descends(hs, start, Tip(hs, stop, start, items[..k]))
    ensures Descends(hs, Tip(hs, stop, start, items[..k]), Tip(hs, stop, start, items))
    ensures hs[Tip(hs, stop, start, items)].number <= stop || Tip(hs, stop, start, items) == start
  {
    if items == [] {
    } else {
      var shorter := items[..|items| - 1];
      if k < |items| {
        assert items[..k] == shorter[..k];
        TipDescends(hs, stop, start, shorter, k);
        DescendsTransitive(hs, start, Tip(hs, stop, start, shorter[..k]), Tip(hs, stop, start, shorter));
      } else {
        assert items[..k] == items;
        TipDescends(hs, stop, start, shorter, |shorter|);
        assert shorter[..|shorter|] == shorter;
      }
      StepInTree(hs, stop, Tip(hs, stop, start, shorter), items[|items| - 1]);
      DescendsTransitive(hs, Tip(hs, stop, start, shorter[..Min(k, |shorter|)]), Tip(hs, stop, start, shorter),
        Tip(hs, stop, start, items));
      DescendsTransitive(hs, start, Tip(hs, stop, start, shorter), Tip(hs, stop, start, items));
    }
  }

  lemma {:induction false} TipStaysAtEnd(hs: Headers, stop: nat, tip: Hash, items: seq<AlephData>)
    requires Closed(hs) && tip in hs && hs[tip].number >= stop
    ensures Tip(hs, stop, tip, items) == tip
  {
    if items != [] {
      TipStaysAtEnd(hs, stop, tip, items[..|items| - 1]);
      StepInTree(hs, stop, tip, items[|items| - 1]);
    }
  }

  // ---- Nodes that start at different blocks ----

  /** `h` lies on the stretch of chain that the list adds on top of `start`. */
  ghost predicate OnChain(hs: Headers, stop: nat, start: Hash, items: seq<AlephData>, h: Hash)
    requires Closed(hs) && start in hs
  {
    Descends(hs, start, h) && Descends(hs, h, Tip(hs, stop, start, items))
  }

  /** Of two blocks on one chain, the higher. */
  function Later(hs: Headers, g: Hash, a: Hash): Hash
    requires g in hs && a in hs
  {
    if hs[a].number <= hs[g].number then g else a
  }

  /** One item keeps a later starter in step: where it stands is always the later of its start and the other's tip. */
  lemma LateStarterStep(hs: Headers, stop: nat, g: Hash, a: Hash, item: AlephData, t: Hash)
    requires Closed(hs) && a in hs && Descends(hs, g, t) && (hs[t].number <= stop || g == a)
    requires Descends(hs, NextTip(hs, stop, a, item), t) && Descends(hs, a, t)
    ensures Descends(hs, a, NextTip(hs, stop, a, item))
    ensures NextTip(hs, stop, Later(hs, g, a), item) == Later(hs, g, NextTip(hs, stop, a, item))
  {
    StepInTree(hs, stop, a, item);
    StepInTree(hs, stop, Later(hs, g, a), item);
    var next := NextTip(hs, stop, a, item);
    if hs[a].number <= hs[g].number {
      AncestorsAreOrdered(hs, a, g, t);
      if Extends(hs, g, item) {
        DescendsTransitive(hs, a, g, item.hash);
      }
      if hs[next].number <= hs[g].number {
        AncestorsAreOrdered(hs, next, g, t);
        if Extends(hs, g, item) && hs[g].number < stop {
          assert hs[a].number < stop;
          assert next == At(hs, item.hash, Min(stop, item.number));
        }
      } else {
        AncestorsAreOrdered(hs, g, next, t);
        AtAt(hs, item.hash, hs[next].number, hs[g].number);
        assert Extends(hs, g, item);
      }
    }
  }

  lemma NextOnChain(hs: Headers, stop: nat, start: Hash, items: seq<AlephData>, k: nat)
    requires Closed(hs) && start in hs && k < |items|
    ensures Tip(hs, stop, start, items[..k + 1]) == NextTip(hs, stop, Tip(hs, stop, start, items[..k]), items[k])
    ensures OnChain(hs, stop, start, items, Tip(hs, stop, start, items[..k]))
    ensures OnChain(hs, stop, start, items, Tip(hs, stop, start, items[..k + 1]))
  {
    assert items[..k + 1][..k] == items[..k];
    TipDescends(hs, stop, start, items, k);
    TipDescends(hs, stop, start, items, k + 1);
  }

  /** Where a later starter stands after every prefix. */
  lemma {:induction false} LateStarterStands(hs: Headers, stop: nat, start: Hash, g: Hash, items: seq<AlephData>,
                                             k: nat)
    requires Closed(hs) && start in hs && OnChain(hs, stop, start, items, g) && k <= |items|
    ensures OnChain(hs, stop, start, items, Tip(hs, stop, start, items[..k]))
    ensures Tip(hs, stop, g, items[..k]) == Later(hs, g, Tip(hs, stop, start, items[..k]))
  {
    TipDescends(hs, stop, start, items, k);
    if k == 0 {
      if hs[g].number <= hs[start].number {
        AncestorsAreOrdered(hs, g, start, Tip(hs, stop, start, items));
      }
    } else {
      LateStarterStands(hs, stop, start, g, items, k - 1);
      NextOnChain(hs, stop, start, items, k - 1);
      assert items[..k][..k - 1] == items[..k - 1];
      TipDescends(hs, stop, start, items, |items|);
      LateStarterStep(hs, stop, g, Tip(hs, stop, start, items[..k - 1]), items[k - 1], Tip(hs, stop, start, items));
    }
  }

  /**
   A node that starts late, at any block `g` of the chain another node builds from `start`, stands after every
   prefix of the list at the later of `g` and the other node's block; so what it started is what the other
   started above `g`, the session's cut-off included.
   */
  lemma LateStarterAgrees(hs: Headers, stop: nat, start: Hash, g: Hash, items: seq<AlephData>, k: nat)
    requires Closed(hs) && start in hs && OnChain(hs, stop, start, items, g) && k <= |items|
    ensures var a, b := Tip(hs, stop, start, items[..k]), Tip(hs, stop, g, items[..k]);
            && Descends(hs, start, a)
            && b == Later(hs, g, a)
            && Descends(hs, g, b)
            && (hs[g].number <= hs[a].number ==>
                  Path(hs, g, b) == Path(hs, start, a)[hs[g].number - hs[start].number..])
  {
    var a := Tip(hs, stop, start, items[..k]);
    LateStarterStands(hs, stop, start, g, items, k);
    if hs[g].number <= hs[a].number {
      AncestorsAreOrdered(hs, g, a, Tip(hs, stop, start, items));
      PathsJoin(hs, start, g, a);
    }
  }
}
