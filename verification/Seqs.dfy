/** Selecting from and mapping over sequences, defined from the back so that a loop which
    appends follows the definition. */
module Seqs {

  function Filter<T>(keep: T -> bool, xs: seq<T>): seq<T> {
    if xs == [] then []
    else
      var last := xs[|xs| - 1];
      Filter(keep, xs[..|xs| - 1]) + if keep(last) then [last] else []
  }

  function Map<T, U>(f: T -> U, xs: seq<T>): (ys: seq<U>)
    ensures |ys| == |xs|
    ensures forall i :: 0 <= i < |xs| ==> ys[i] == f(xs[i])
  {
    seq(|xs|, i requires 0 <= i < |xs| => f(xs[i]))
  }

  /** One more element processed by a loop that filters. */
  lemma FilterStep<T>(keep: T -> bool, xs: seq<T>, i: nat)
    requires i < |xs|
    ensures Filter(keep, xs[..i + 1]) == Filter(keep, xs[..i]) + if keep(xs[i]) then [xs[i]] else []
  {
    assert xs[..i + 1][..i] == xs[..i];
  }

  /** Filtering keeps every multiplicity of a selected element and nothing else. */
  lemma {:induction false} FilterCount<T>(keep: T -> bool, xs: seq<T>, x: T)
    ensures multiset(Filter(keep, xs))[x] == if keep(x) then multiset(xs)[x] else 0
  {
    if xs != [] {
      var front, last := xs[..|xs| - 1], xs[|xs| - 1];
      FilterCount(keep, front, x);
      assert xs == front + [last];
    }
  }

  lemma FilterMember<T>(keep: T -> bool, xs: seq<T>, x: T)
    ensures x in Filter(keep, xs) <==> x in xs && keep(x)
  {
    FilterCount(keep, xs, x);
    assert x in Filter(keep, xs) <==> x in multiset(Filter(keep, xs));
    assert x in xs <==> x in multiset(xs);
  }

  /** What a filter selects does not depend on the order of its input. */
  lemma FilterPermutes<T(!new)>(keep: T -> bool, xs: seq<T>, ys: seq<T>)
    requires multiset(xs) == multiset(ys)
    ensures multiset(Filter(keep, xs)) == multiset(Filter(keep, ys))
    ensures |Filter(keep, xs)| == |Filter(keep, ys)|
  {
    forall x ensures multiset(Filter(keep, xs))[x] == multiset(Filter(keep, ys))[x] {
      FilterCount(keep, xs, x);
      FilterCount(keep, ys, x);
    }
    assert multiset(Filter(keep, xs)) == multiset(Filter(keep, ys));
  }

  /** Two tests that agree on the input select the same subsequence. */
  lemma {:induction false} FilterAgrees<T>(p: T -> bool, q: T -> bool, xs: seq<T>)
    requires forall x :: x in xs ==> p(x) == q(x)
    ensures Filter(p, xs) == Filter(q, xs)
  {
    if xs != [] {
      FilterAgrees(p, q, xs[..|xs| - 1]);
    }
  }

  /** Two nested tests select what one conjoined test selects. */
  lemma {:induction false} FilterTwice<T>(p: T -> bool, q: T -> bool, both: T -> bool, xs: seq<T>)
    requires forall x :: both(x) <==> p(x) && q(x)
    ensures Filter(q, Filter(p, xs)) == Filter(both, xs)
  {
    if xs != [] {
      var front, last := xs[..|xs| - 1], xs[|xs| - 1];
      FilterTwice(p, q, both, front);
      var kept := Filter(p, front);
      if p(last) {
        assert (kept + [last])[..|kept|] == kept;
      } else {
        assert kept + [] == kept;
      }
    }
  }

  /** Taking one element out of a sequence takes its image out of the mapped one. */
  lemma MapWithout<T, U>(f: T -> U, xs: seq<T>, i: nat)
    requires i < |xs|
    ensures multiset(Map(f, xs)) == multiset{f(xs[i])} + multiset(Map(f, xs[..i] + xs[i + 1..]))
  {
    var left, right := Map(f, xs[..i]), Map(f, xs[i + 1..]);
    assert Map(f, xs) == left + [f(xs[i])] + right;
    assert Map(f, xs[..i] + xs[i + 1..]) == left + right;
  }

  lemma RestPermutes<T>(xs: seq<T>, ys: seq<T>, i: nat)
    requires multiset(xs) == multiset(ys) && xs != [] && i < |ys| && ys[i] == xs[0]
    ensures multiset(xs[1..]) == multiset(ys[..i] + ys[i + 1..])
  {
    assert xs == [xs[0]] + xs[1..];
    assert ys == ys[..i] + [ys[i]] + ys[i + 1..];
    assert multiset(xs[1..]) == multiset(xs) - multiset{xs[0]};
    assert multiset(ys[..i] + ys[i + 1..]) == multiset(ys) - multiset{xs[0]};
  }

  lemma MapFirst<T, U>(f: T -> U, xs: seq<T>)
    requires xs != []
    ensures multiset(Map(f, xs)) == multiset{f(xs[0])} + multiset(Map(f, xs[1..]))
  {
    assert Map(f, xs) == [f(xs[0])] + Map(f, xs[1..]);
  }

  /** Mapping respects reordering. */
  lemma {:induction false} MapPermutes<T, U>(f: T -> U, xs: seq<T>, ys: seq<T>)
    requires multiset(xs) == multiset(ys)
    ensures multiset(Map(f, xs)) == multiset(Map(f, ys))
  {
    if xs == [] {
      assert |multiset(ys)| == 0;
    } else {
      assert xs[0] in multiset(ys);
      var i :| 0 <= i < |ys| && ys[i] == xs[0];
      RestPermutes(xs, ys, i);
      MapPermutes(f, xs[1..], ys[..i] + ys[i + 1..]);
      MapFirst(f, xs);
      MapWithout(f, ys, i);
    }
  }

  /** The elements of a set, in some order. */
  ghost function Enumerated<T>(xs: set<T>): (r: seq<T>)
    ensures multiset(r) == multiset(xs)
  {
    if xs == {} then [] else
      var x :| x in xs;
      assert xs == (xs - {x}) + {x};
      Enumerated(xs - {x}) + [x]
  }
}
