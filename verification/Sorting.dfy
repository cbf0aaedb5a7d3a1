/** Sorting by a comparison, with the facts that make a sorted list canonical. */
module Sorting {
  import opened Types
  import opened Orders

  function Insert<T>(less: (T, T) -> bool, x: T, xs: seq<T>): (ys: seq<T>)
    ensures multiset(ys) == multiset{x} + multiset(xs)
  {
    if xs == [] then [x]
    else if less(xs[0], x) then
      assert xs == [xs[0]] + xs[1..];
      [xs[0]] + Insert(less, x, xs[1..])
    else [x] + xs
  }

  function Sort<T>(less: (T, T) -> bool, xs: seq<T>): (ys: seq<T>)
    ensures multiset(ys) == multiset(xs)
    ensures |ys| == |xs|
  {
    if xs == [] then []
    else
      assert xs == [xs[0]] + xs[1..];
      var ys := Insert(less, xs[0], Sort(less, xs[1..]));
      assert |ys| == |multiset(ys)|;
      ys
  }

  ghost predicate Sorted<T(!new)>(less: (T, T) -> bool, xs: seq<T>) {
    forall i, j :: 0 <= i < j < |xs| ==> !less(xs[j], xs[i])
  }

  lemma {:induction false} InsertSorted<T(!new)>(less: (T, T) -> bool, x: T, xs: seq<T>, dom: set<T>)
    requires StrictTotal(less, dom) && x in dom && Sorted(less, xs)
    requires forall y :: y in xs ==> y in dom
    ensures Sorted(less, Insert(less, x, xs))
  {
    if xs != [] && less(xs[0], x) {
      InsertSorted(less, x, xs[1..], dom);
      var tail := Insert(less, x, xs[1..]);
      forall y | y in tail ensures !less(y, xs[0]) {
        assert y in multiset(tail);
        assert y == x || y in xs[1..];
      }
    }
  }

  lemma {:induction false} SortSorts<T(!new)>(less: (T, T) -> bool, xs: seq<T>, dom: set<T>)
    requires StrictTotal(less, dom) && forall y :: y in xs ==> y in dom
    ensures Sorted(less, Sort(less, xs))
  {
    if xs != [] {
      SortSorts(less, xs[1..], dom);
      var tail := Sort(less, xs[1..]);
      forall y | y in tail ensures y in dom {
        assert y in multiset(tail);
      }
      InsertSorted(less, xs[0], tail, dom);
    }
  }

  lemma SortedHeads<T(!new)>(less: (T, T) -> bool, xs: seq<T>, ys: seq<T>, dom: set<T>)
    requires StrictTotal(less, dom) && Sorted(less, xs) && Sorted(less, ys)
    requires xs != [] && multiset(xs) == multiset(ys) && forall y :: y in xs ==> y in dom
    ensures ys != [] && xs[0] == ys[0]
  {
    assert xs[0] in multiset(ys) && ys != [];
    assert ys[0] in multiset(xs);
    var i :| 0 <= i < |ys| && ys[i] == xs[0];
    var j :| 0 <= j < |xs| && xs[j] == ys[0];
  }

  lemma TailsPermute<T>(xs: seq<T>, ys: seq<T>)
    requires xs != [] && ys != [] && xs[0] == ys[0] && multiset(xs) == multiset(ys)
    ensures multiset(xs[1..]) == multiset(ys[1..])
  {
    assert xs == [xs[0]] + xs[1..] && ys == [ys[0]] + ys[1..];
    assert multiset(xs[1..]) == multiset(xs) - multiset{xs[0]};
    assert multiset(ys[1..]) == multiset(ys) - multiset{xs[0]};
  }

  /** Sorted lists of the same elements are the same list. */
  lemma {:induction false} SortedUnique<T(!new)>(less: (T, T) -> bool, xs: seq<T>, ys: seq<T>, dom: set<T>)
    requires StrictTotal(less, dom) && Sorted(less, xs) && Sorted(less, ys)
    requires multiset(xs) == multiset(ys) && forall y :: y in xs ==> y in dom
    ensures xs == ys
  {
    if xs == [] {
      assert |multiset(ys)| == 0;
    } else {
      SortedHeads(less, xs, ys, dom);
      TailsPermute(xs, ys);
      assert xs == [xs[0]] + xs[1..] && ys == [ys[0]] + ys[1..];
      SortedUnique(less, xs[1..], ys[1..], dom);
    }
  }

  /** Nothing precedes the head of a sorted list. */
  lemma SortHead<T(!new)>(less: (T, T) -> bool, xs: seq<T>, dom: set<T>)
    requires StrictTotal(less, dom) && xs != [] && forall y :: y in xs ==> y in dom
    ensures Sort(less, xs)[0] in xs
    ensures forall y :: y in xs && y != Sort(less, xs)[0] ==> less(Sort(less, xs)[0], y)
  {
    var s := Sort(less, xs);
    SortSorts(less, xs, dom);
    assert s[0] in multiset(xs);
    forall y | y in xs && y != s[0] ensures less(s[0], y) {
      assert y in multiset(s);
      var i :| 0 <= i < |s| && s[i] == y;
    }
  }

  lemma StringsLinear(dom: set<string>)
    ensures StrictTotal(StrLess, dom)
  {
    forall x, y | x in dom && y in dom ensures !(StrLess(x, y) && StrLess(y, x)) {
      StrLessAsymmetric(x, y);
    }
    forall x, y | x in dom && y in dom && x != y ensures StrLess(x, y) || StrLess(y, x) {
      StrLessTotal(x, y);
    }
    forall x, y, z | x in dom && y in dom && z in dom && StrLess(x, y) && StrLess(y, z) ensures StrLess(x, z) {
      StrLessTransitive(x, y, z);
    }
  }

  /** The head of a string sort is decided by the set of strings sorted. */
  lemma LeastString(xs: seq<string>, ys: seq<string>)
    requires xs != [] && forall s :: s in xs <==> s in ys
    ensures ys != [] && Sort(StrLess, xs)[0] == Sort(StrLess, ys)[0]
  {
    assert xs[0] in ys;
    var dom := set s | s in xs;
    StringsLinear(dom);
    SortHead(StrLess, xs, dom);
    SortHead(StrLess, ys, dom);
  }

  /** The head of an age sort is the winner of an age scan. */
  lemma OldestIsHead(xs: seq<RJob>)
    requires xs != [] && StrictTotal(Older, Elems(xs))
    ensures Sort(Older, xs)[0] == Pick(Older, xs)
  {
    SortHead(Older, xs, Elems(xs));
    PickIsBest(Older, xs);
  }
}
