/** Sequences without repeats, and sequences taken element by element from others. */
module Lists {

  function Map<T, R>(f: T -> R, xs: seq<T>): (ys: seq<R>)
    ensures |ys| == |xs| && forall i | 0 <= i < |ys| :: ys[i] == f(xs[i])
  {
    seq(|xs|, i requires 0 <= i < |xs| => f(xs[i]))
  }

  ghost predicate Distinct<T>(xs: seq<T>) {
    forall i, j | 0 <= i < j < |xs| :: xs[i] != xs[j]
  }

  lemma DistinctParts<T>(xs: seq<T>, ys: seq<T>)
    requires Distinct(xs + ys)
    ensures forall x | x in xs :: x !in ys
  {
    forall i, j | 0 <= i < |xs| && 0 <= j < |ys| ensures xs[i] != ys[j] {
      assert (xs + ys)[i] != (xs + ys)[|xs| + j];
    }
  }

  lemma DistinctPrefix<T>(xs: seq<T>, rest: seq<T>, x: T)
    requires xs == rest + [x]
    ensures Distinct(xs) <==> Distinct(rest) && x !in rest
  {
    forall i, j | 0 <= i < j < |xs| && Distinct(rest) && x !in rest ensures xs[i] != xs[j] {
      assert xs[i] == rest[i];
      assert j < |rest| ==> xs[j] == rest[j];
    }
    if Distinct(xs) {
      forall i, j | 0 <= i < j < |rest| ensures rest[i] != rest[j] {
        assert xs[i] != xs[j];
      }
      forall i | 0 <= i < |rest| ensures rest[i] != x {
        assert xs[i] != xs[|rest|];
      }
    }
  }

  lemma OccursTwice<T>(xs: seq<T>, i: nat, j: nat)
    requires i < j < |xs| && xs[i] == xs[j]
    ensures multiset(xs)[xs[j]] >= 2
  {
    assert xs == xs[..j] + xs[j..];
    assert xs[..j][i] == xs[j] && xs[j..][0] == xs[j];
    assert xs[j] in multiset(xs[..j]) && xs[j] in multiset(xs[j..]);
  }

  /** A sequence with the elements of a set as its multiset lists them all, each once. */
  lemma ListsAll<T>(xs: seq<T>, all: set<T>)
    requires multiset(xs) == multiset(all)
    ensures |xs| == |all| && Distinct(xs) && forall x :: x in xs <==> x in all
  {
    assert |multiset(xs)| == |multiset(all)|;
    forall x ensures x in xs <==> x in all {
      assert x in xs <==> x in multiset(xs);
    }
    forall i, j | 0 <= i < j < |xs| ensures xs[i] != xs[j] {
      if xs[i] == xs[j] {
        OccursTwice(xs, i, j);
      }
    }
  }
}
