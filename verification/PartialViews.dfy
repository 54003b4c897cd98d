/**
 Nodes that know only part of the tree: when an item the data store lets through does to them what it does to a node
 that knows the whole tree, and when not.
 */
module PartialViews {
  import opened BlockTree
  import opened Finalization
  import opened SessionChain

  /** The data store's admission test, for a client that knows `view` and has finalized `fin`. */
  predicate Admitted(view: Headers, fin: Hash, item: AlephData)
    requires fin in view
  {
    Available(Client(view.Keys, view[fin].number), item)
  }

  /** The item is known, or not above the session's last block. */
  predicate KeepsStep(view: Headers, stop: nat, item: AlephData)
  {
    item.hash in view || item.number <= stop
  }

  /** One of the two blocks is above the other, or they are the same. */
  ghost predicate Comparable(hs: Headers, a: Hash, b: Hash)
    requires Closed(hs)
  {
    Descends(hs, a, b) || Descends(hs, b, a)
  }

  /** While the finalized block is not above the session's last block, whatever is admitted keeps step. */
  lemma BoundKeepsStep(view: Headers, fin: Hash, stop: nat, item: AlephData)
    requires fin in view && Admitted(view, fin, item) && view[fin].number <= stop
    ensures KeepsStep(view, stop, item)
  {
  }

  /**
   With no assumption on admission: a partial view falls out of step exactly when it misses a block that would
   move the tip.
   */
  lemma PartialViewExact(hs: Headers, view: Headers, stop: nat, tip: Hash, item: AlephData)
    requires Closed(hs) && Closed(view) && view.Items <= hs.Items && tip in view && tip in hs
    ensures NextTip(view, stop, tip, item) != NextTip(hs, stop, tip, item)
            <==> item.hash !in view && Extends(hs, tip, item) && hs[tip].number < Min(stop, item.number)
  {
    StepInTree(view, stop, tip, item);
    StepInTree(hs, stop, tip, item);
    InPart(view, hs, tip);
    if item.hash in view {
      DescendsInPart(view, hs, tip, item.hash);
      InPart(view, hs, item.hash);
      if Extends(hs, tip, item) && hs[tip].number < stop {
        AtInPart(view, hs, item.hash, Min(stop, item.number));
      }
    }
  }

  /** `view` is part of the tree, and the block the item leads to and the finalized one are on one branch with `t`. */
  ghost predicate Around(hs: Headers, view: Headers, stop: nat, tip: Hash, fin: Hash, item: AlephData, t: Hash) {
    && Closed(hs) && Closed(view) && view.Items <= hs.Items
    && tip in view && fin in view && tip in hs && fin in hs
    && Comparable(hs, fin, t) && Descends(hs, NextTip(hs, stop, tip, item), t)
  }

  /** A block on one branch with the finalized one, and not above it, is known. */
  lemma KnownBelow(hs: Headers, view: Headers, fin: Hash, h: Hash, t: Hash)
    requires Closed(hs) && Closed(view) && view.Items <= hs.Items && fin in view && fin in hs
    requires Comparable(hs, fin, t) && Descends(hs, h, t) && hs[h].number <= hs[fin].number
    ensures h in view
  {
    if Descends(hs, fin, t) {
      AncestorsAreOrdered(hs, h, fin, t);
    } else {
      DescendsTransitive(hs, h, t, fin);
    }
    AncestorInPart(view, hs, h, fin);
  }

  /**
   What admission is worth: an admitted item puts a partial view out of step exactly when it is unknown, numbered
   above the session's last block, and would move the tip.
   */
  lemma AdmittedExact(hs: Headers, view: Headers, stop: nat, tip: Hash, fin: Hash, item: AlephData, t: Hash)
    requires Around(hs, view, stop, tip, fin, item, t) && Admitted(view, fin, item)
    ensures NextTip(view, stop, tip, item) != NextTip(hs, stop, tip, item)
            <==> !KeepsStep(view, stop, item) && Extends(hs, tip, item) && hs[tip].number < stop
  {
    PartialViewExact(hs, view, stop, tip, item);
    StepInTree(hs, stop, tip, item);
    InPart(view, hs, tip);
    InPart(view, hs, fin);
    if item.hash !in view && Extends(hs, tip, item) && hs[tip].number < item.number <= stop {
      assert item.hash == NextTip(hs, stop, tip, item);
      KnownBelow(hs, view, fin, item.hash, t);
    }
  }

  /** So an admitted item that keeps step does the same on a partial view as on the whole tree. */
  lemma PartialViewStep(hs: Headers, view: Headers, stop: nat, tip: Hash, fin: Hash, item: AlephData, t: Hash)
    requires Around(hs, view, stop, tip, fin, item, t) && Admitted(view, fin, item) && KeepsStep(view, stop, item)
    ensures NextTip(view, stop, tip, item) == NextTip(hs, stop, tip, item)
    ensures Descends(view, tip, NextTip(view, stop, tip, item))
  {
    StepInTree(view, stop, tip, item);
    assert Descends(view, tip, NextTip(view, stop, tip, item));
    AdmittedExact(hs, view, stop, tip, fin, item, t);
  }

  // ---- The test is exact ----

  lemma {:induction false} Unused(hs: set<nat>) returns (h: nat)
    ensures forall x | x in hs :: x < h
  {
    h := 0;
    if hs != {} {
      var x :| x in hs;
      var g := Unused(hs - {x});
      assert forall y | y in hs :: y == x || y in hs - {x};
      h := if x < g then g else x + 1;
    }
  }

  lemma Leaf(hs: Headers, a: Hash, h: Hash)
    requires Closed(hs) && a in hs && h !in hs
    ensures var more := hs[h := Header(h, a, hs[a].number + 1)];
            Closed(more) && hs.Items <= more.Items && Descends(more, a, h)
  {
    var more := hs[h := Header(h, a, hs[a].number + 1)];
    assert LinkOk(hs, a);
    forall x ensures LinkOk(more, x) && HasParent(more, x) {
      assert LinkOk(hs, x) && HasParent(hs, x);
    }
    assert At(more, a, hs[a].number) == a;
  }

  /** A tree can grow a branch from any block to a new one, at any greater height. */
  lemma {:induction false} Branch(hs: Headers, a: Hash, h: Hash, number: nat) returns (more: Headers)
    requires Closed(hs) && a in hs && h !in hs && hs[a].number < number
    ensures Closed(more) && hs.Items <= more.Items && Descends(more, a, h) && more[h].number == number
    decreases number - hs[a].number
  {
    if number == hs[a].number + 1 {
      Leaf(hs, a, h);
      more := hs[h := Header(h, a, number)];
    } else {
      var x := Unused(hs.Keys + {h});
      var next := hs[x := Header(x, a, hs[a].number + 1)];
      Leaf(hs, a, x);
      more := Branch(next, x, h, number);
      DescendsInPart(next, more, a, x);
      DescendsTransitive(more, a, x, h);
    }
  }

  /** An admitted item that does not keep step: a tree that the view may be part of, and a tip, that tell it apart. */
  lemma OutOfStep(view: Headers, stop: nat, fin: Hash, item: AlephData) returns (hs: Headers, tip: Hash, t: Hash)
    requires Closed(view) && fin in view && Admitted(view, fin, item) && !KeepsStep(view, stop, item) && stop > 0
    ensures Around(hs, view, stop, tip, fin, item, t)
    ensures NextTip(view, stop, tip, item) != NextTip(hs, stop, tip, item)
  {
    tip, t := At(view, fin, stop - 1), At(view, fin, stop);
    AtAt(view, fin, stop, stop - 1);
    hs := Branch(view, t, item.hash, item.number);
    DescendsInPart(view, hs, tip, t);
    DescendsInPart(view, hs, t, fin);
    DescendsTransitive(hs, tip, t, item.hash);
    StepInTree(hs, stop, tip, item);
    InPart(view, hs, tip);
    InPart(view, hs, t);
    assert At(hs, item.hash, stop) == t;
    PartialViewExact(hs, view, stop, tip, item);
    assert At(hs, t, stop) == t;
  }

  /** Whatever the tree and the tip, the item does the same on the view as on the tree. */
  ghost predicate NeverOutOfStep(view: Headers, stop: nat, fin: Hash, item: AlephData) {
    forall hs, tip, t {:trigger Around(hs, view, stop, tip, fin, item, t)} |
      Around(hs, view, stop, tip, fin, item, t) :: NextTip(view, stop, tip, item) == NextTip(hs, stop, tip, item)
  }

  /** A node can tell from what it knows whether an admitted item is harmless: `KeepsStep` is the exact test. */
  lemma KeepsStepExact(view: Headers, stop: nat, fin: Hash, item: AlephData)
    requires Closed(view) && fin in view && Admitted(view, fin, item)
    ensures NeverOutOfStep(view, stop, fin, item) <==> KeepsStep(view, stop, item) || stop == 0
  {
    forall hs, tip, t | Around(hs, view, stop, tip, fin, item, t) && (KeepsStep(view, stop, item) || stop == 0)
      ensures NextTip(view, stop, tip, item) == NextTip(hs, stop, tip, item)
    {
      AdmittedExact(hs, view, stop, tip, fin, item, t);
    }
    if !KeepsStep(view, stop, item) && stop > 0 {
      var hs, tip, t := OutOfStep(view, stop, fin, item);
    }
  }

  // ---- Whole lists ----

  /** What a node knows and has finalized when it reads an item. */
  datatype View = View(headers: Headers, fin: Hash)

  ghost predicate AllNumbered(views: seq<View>) {
    forall v | v in views :: WellNumbered(v.headers)
  }

  /** `last_finalized` after a list of items, each read with the view of its moment. */
  function TipOnViews(views: seq<View>, stop: nat, start: Hash, items: seq<AlephData>): Hash
    requires |views| == |items| && AllNumbered(views)
  {
    if items == [] then start
    else
      var k := |items| - 1;
      NextTip(views[k].headers, stop, TipOnViews(views[..k], stop, start, items[..k]), items[k])
  }

  lemma OneOnViews(stop: nat, start: Hash, views: seq<View>, items: seq<AlephData>, v: View, item: AlephData)
    requires |views| == |items| && AllNumbered(views) && WellNumbered(v.headers)
    ensures AllNumbered(views + [v])
    ensures TipOnViews(views + [v], stop, start, items + [item]) ==
            NextTip(v.headers, stop, TipOnViews(views, stop, start, items), item)
  {
    assert (views + [v])[..|views|] == views && (items + [item])[..|views|] == items;
  }

  /**
   An ancestor-closed part of the tree that lets the item through and keeps step, with what was finalized on
   one branch.
   */
  ghost predicate GoodView(hs: Headers, stop: nat, start: Hash, items: seq<AlephData>, v: View, item: AlephData)
    requires Closed(hs) && start in hs
  {
    && Closed(v.headers) && v.headers.Items <= hs.Items
    && v.fin in v.headers && Admitted(v.headers, v.fin, item)
    && v.fin in hs && Comparable(hs, v.fin, Tip(hs, stop, start, items)) && KeepsStep(v.headers, stop, item)
  }

  /** The view of an item is good and holds the one before it, the first one the node's start. */
  ghost predicate GoodViewAt(hs: Headers, stop: nat, start: Hash, views: seq<View>, items: seq<AlephData>, g: Hash,
                             i: nat)
    requires Closed(hs) && start in hs && i < |views| == |items|
  {
    && GoodView(hs, stop, start, items, views[i], items[i])
    && if i == 0 then g in views[0].headers else views[i - 1].headers.Items <= views[i].headers.Items
  }

  ghost predicate GoodViews(hs: Headers, stop: nat, start: Hash, views: seq<View>, items: seq<AlephData>, g: Hash)
    requires Closed(hs) && start in hs && |views| == |items|
  {
    forall i {:trigger GoodViewAt(hs, stop, start, views, items, g, i)} | 0 <= i < |views| ::
      GoodViewAt(hs, stop, start, views, items, g, i)
  }

  /** One item read with a good view, by a node that started at `g`. */
  lemma PartialViewNext(hs: Headers, stop: nat, start: Hash, g: Hash, v: View, items: seq<AlephData>, k: nat)
    requires Closed(hs) && start in hs && OnChain(hs, stop, start, items, g)
    requires k < |items| && GoodView(hs, stop, start, items, v, items[k])
    requires Tip(hs, stop, g, items[..k]) in v.headers
    ensures NextTip(v.headers, stop, Tip(hs, stop, g, items[..k]), items[k]) == Tip(hs, stop, g, items[..k + 1])
    ensures Tip(hs, stop, g, items[..k + 1]) in v.headers
  {
    var tip := Tip(hs, stop, g, items[..k]);
    LateStarterAgrees(hs, stop, start, g, items, k + 1);
    NextOnChain(hs, stop, start, items, k);
    assert items[..k + 1][..k] == items[..k];
    InPart(v.headers, hs, tip);
    PartialViewStep(hs, v.headers, stop, tip, v.fin, items[k], Tip(hs, stop, start, items));
  }

  lemma GoodViewsKnow(hs: Headers, stop: nat, start: Hash, views: seq<View>, items: seq<AlephData>, g: Hash, k: nat,
                      h: Hash)
    requires Closed(hs) && start in hs && |views| == |items| && GoodViews(hs, stop, start, views, items, g)
    requires k < |items| && if k == 0 then h == g else h in views[k - 1].headers
    ensures h in views[k].headers && GoodView(hs, stop, start, items, views[k], items[k])
  {
    assert GoodViewAt(hs, stop, start, views, items, g, k);
    if k > 0 {
      InPart(views[k - 1].headers, views[k].headers, h);
    }
  }

  /** After `k` items a node with the given views stands where the whole tree leads, at a block it knows. */
  ghost predicate InAgreement(hs: Headers, stop: nat, g: Hash, views: seq<View>, items: seq<AlephData>, k: nat)
    requires Closed(hs) && |views| == |items| && k <= |items|
  {
    && AllNumbered(views[..k])
    && TipOnViews(views[..k], stop, g, items[..k]) == Tip(hs, stop, g, items[..k])
    && (k > 0 ==> Tip(hs, stop, g, items[..k]) in views[k - 1].headers)
  }

  lemma AgreementGoesOn(hs: Headers, stop: nat, start: Hash, g: Hash, views: seq<View>, items: seq<AlephData>, k: nat)
    requires Closed(hs) && start in hs && OnChain(hs, stop, start, items, g)
    requires |views| == |items| && k < |items| && GoodViews(hs, stop, start, views, items, g)
    requires InAgreement(hs, stop, g, views, items, k)
    ensures InAgreement(hs, stop, g, views, items, k + 1)
  {
    GoodViewsKnow(hs, stop, start, views, items, g, k, Tip(hs, stop, g, items[..k]));
    PartialViewNext(hs, stop, start, g, views[k], items, k);
    LastView(stop, g, views, items, k);
  }

  lemma LastView(stop: nat, g: Hash, views: seq<View>, items: seq<AlephData>, k: nat)
    requires k < |views| == |items| && AllNumbered(views[..k]) && WellNumbered(views[k].headers)
    ensures AllNumbered(views[..k + 1])
    ensures TipOnViews(views[..k + 1], stop, g, items[..k + 1]) ==
            NextTip(views[k].headers, stop, TipOnViews(views[..k], stop, g, items[..k]), items[k])
  {
    var vs, ds := views[..k + 1], items[..k + 1];
    assert vs[..k] == views[..k] && ds[..k] == items[..k];
    assert forall v | v in vs :: v in views[..k] || v == views[k];
  }

  /** A partial view, growing as it may, never takes a node out of step with a node that knows the whole tree. */
  lemma {:induction false} PartialViewAgrees(hs: Headers, stop: nat, start: Hash, g: Hash, views: seq<View>,
                                             items: seq<AlephData>, k: nat)
    requires Closed(hs) && start in hs && OnChain(hs, stop, start, items, g)
    requires |views| == |items| && k <= |items| && GoodViews(hs, stop, start, views, items, g)
    ensures InAgreement(hs, stop, g, views, items, k)
  {
    if k > 0 {
      PartialViewAgrees(hs, stop, start, g, views, items, k - 1);
      AgreementGoesOn(hs, stop, start, g, views, items, k - 1);
    }
  }

  // Genesis 0, blocks 1 and 4 on it, blocks 2 and 3 on block 1; the view does not know block 3.
  const FORKED_VIEW: Headers :=
    map[0 := Header(0, 0, 0), 1 := Header(1, 0, 1), 2 := Header(2, 1, 2), 4 := Header(4, 0, 1)]
  const FORKED_TREE: Headers := FORKED_VIEW[3 := Header(3, 1, 2)]

  lemma ForkedTree()
    ensures Closed(FORKED_TREE) && Descends(FORKED_TREE, 0, 3) && Descends(FORKED_TREE, 1, 2)
    ensures At(FORKED_TREE, 3, 1) == 1 && At(FORKED_TREE, 4, 1) == 4 && At(FORKED_TREE, 1, 1) == 1
    ensures NextTip(FORKED_TREE, 1, 0, AlephData(3, 2)) == 1
    ensures NextTip(FORKED_TREE, 1, 1, AlephData(4, 1)) == 1
  {
    assert At(FORKED_TREE, 1, 0) == 0;
    StepInTree(FORKED_TREE, 1, 0, AlephData(3, 2));
    StepInTree(FORKED_TREE, 1, 1, AlephData(4, 1));
  }

  lemma ForkedViewIsClosed()
    ensures Closed(FORKED_VIEW)
  {
  }

  lemma ForkedView()
    ensures Closed(FORKED_VIEW)
    ensures NextTip(FORKED_VIEW, 1, 0, AlephData(3, 2)) == 0
    ensures NextTip(FORKED_VIEW, 1, 0, AlephData(4, 1)) == 4
  {
    ForkedViewIsClosed();
    ForkedViewMoves(FORKED_VIEW);
  }

  /** The walk from block 4 meets the genesis at once. */
  lemma ForkedViewMoves(view: Headers)
    requires WellNumbered(view) && {0, 4} <= view.Keys && view[0] == Header(0, 0, 0) && view[4] == Header(4, 0, 1)
    ensures NextTip(view, 1, 0, AlephData(4, 1)) == 4
  {
    assert Walk(view, 0, 0) == Extension([]);
    assert Walk(view, 4, 0) == Extension([] + [view[4]]);
  }

  /**
   The bound on the finalized block is needed. Here a node at the genesis has finalized block 2, above the
   session's end 1 and on its chain; the unknown block 3 is let through by its number, the node stays behind,
   and the next item takes it to block 4, a sibling of the block 1 that the whole tree leads to.
   */
  lemma PartialViewNeedsTheBound(items: seq<AlephData>)
    requires items == [AlephData(3, 2), AlephData(4, 1)]
    ensures Closed(FORKED_TREE) && Closed(FORKED_VIEW) && FORKED_VIEW.Items <= FORKED_TREE.Items
    ensures forall item | item in items :: Admitted(FORKED_VIEW, 2, item)
    ensures Descends(FORKED_TREE, Tip(FORKED_TREE, 1, 0, items), 2)
    ensures Tip(FORKED_TREE, 1, 0, items) == 1 && Tip(FORKED_VIEW, 1, 0, items) == 4
    ensures !Descends(FORKED_TREE, 1, 4) && !Descends(FORKED_TREE, 4, 1)
  {
    ForkedTree();
    ForkedView();
    assert items[..1] == [items[0]] && items[..1][..0] == [];
    assert Tip(FORKED_TREE, 1, 0, items[..1]) == 1;
    assert Tip(FORKED_VIEW, 1, 0, items[..1]) == 0;
  }
}
