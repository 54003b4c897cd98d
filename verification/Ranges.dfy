/** Sizes of sets of consecutive numbers. */
module Ranges {

  function Interval(from: nat, count: nat): (ns: set<nat>)
    ensures |ns| == count && forall n :: n in ns <==> from <= n < from + count
  {
    if count == 0 then {} else Interval(from, count - 1) + {from + count - 1}
  }

  lemma IntervalBound(ns: set<nat>, from: nat, count: nat)
    requires forall n | n in ns :: from <= n < from + count
    ensures |ns| <= count
  {
    var all := Interval(from, count);
    assert all == ns + (all - ns);
  }
}
