/** The strict total orders behind primary election, and what "best" means in one. */
module Orders {
  import opened Types

  /** Byte-wise string comparison; on valid UTF-8 this is code-point order. */
  predicate StrLess(a: string, b: string) {
    b != [] && (a == [] || a[0] < b[0] || (a[0] == b[0] && StrLess(a[1..], b[1..])))
  }

  lemma {:induction false} StrLessAsymmetric(a: string, b: string)
    ensures !(StrLess(a, b) && StrLess(b, a))
  {
    if a != [] && b != [] {
      StrLessAsymmetric(a[1..], b[1..]);
    }
  }

  lemma {:induction false} StrLessTransitive(a: string, b: string, c: string)
    requires StrLess(a, b) && StrLess(b, c)
    ensures StrLess(a, c)
  {
    if a != [] && a[0] == b[0] == c[0] {
      StrLessTransitive(a[1..], b[1..], c[1..]);
    }
  }

  lemma {:induction false} StrLessTotal(a: string, b: string)
    requires a != b
    ensures StrLess(a, b) || StrLess(b, a)
  {
    if a != [] && b != [] && a[0] == b[0] {
      assert a == [a[0]] + a[1..] && b == [b[0]] + b[1..];
      StrLessTotal(a[1..], b[1..]);
    }
  }

  /** At the first difference `a` has the smaller character, or it ends there. */
  ghost predicate Precedes(a: string, b: string) {
    exists k :: 0 <= k <= |a| && k < |b| && a[..k] == b[..k] && (k == |a| || a[k] < b[k])
  }

  /** String comparison is lexicographic. */
  lemma {:induction false} StrLessIsLexicographic(a: string, b: string)
    ensures StrLess(a, b) <==> Precedes(a, b)
  {
    if a == [] || b == [] || a[0] != b[0] {
      if StrLess(a, b) {
        assert a[..0] == b[..0];
      }
    } else {
      StrLessIsLexicographic(a[1..], b[1..]);
      if StrLess(a, b) {
        var k :| 0 <= k <= |a[1..]| && k < |b[1..]| && a[1..][..k] == b[1..][..k] && (k == |a[1..]| || a[1..][k] < b[1..][k]);
        assert a[..k + 1] == [a[0]] + a[1..][..k] && b[..k + 1] == [b[0]] + b[1..][..k];
      }
      if Precedes(a, b) {
        var k :| 0 <= k <= |a| && k < |b| && a[..k] == b[..k] && (k == |a| || a[k] < b[k]);
        assert a[1..][..k - 1] == a[..k][1..] && b[1..][..k - 1] == b[..k][1..];
      }
    }
  }

  const HIERARCHY := ["Deployment", "StatefulSet", "DaemonSet", "Job", "ReplicaSet", "Pod"]

  /** Controllers stand above what they own: the listed kinds descend, a claim ranks with a Pod, and any
      other kind is below them all. */
  lemma RanksDescend(kind: string)
    ensures forall i, j :: 0 <= i < j < |HIERARCHY| ==> KindHierarchyRank(HIERARCHY[i]) > KindHierarchyRank(HIERARCHY[j])
    ensures KindHierarchyRank("PersistentVolumeClaim") == KindHierarchyRank("Pod")
    ensures kind !in HIERARCHY && kind != "PersistentVolumeClaim" <==> KindHierarchyRank(kind) < KindHierarchyRank("Pod")
  {
    assert HIERARCHY[0] == "Deployment" && HIERARCHY[1] == "StatefulSet" && HIERARCHY[2] == "DaemonSet";
    assert HIERARCHY[3] == "Job" && HIERARCHY[4] == "ReplicaSet" && HIERARCHY[5] == "Pod";
  }

  /** Created earlier, or at the same instant with the smaller name. */
  predicate Older(a: RJob, b: RJob) {
    a.created < b.created || (a.created == b.created && StrLess(a.name, b.name))
  }

  /** Higher kind rank, then older. */
  predicate Outranks(a: RJob, b: RJob) {
    var ra, rb := KindHierarchyRank(a.finding.kind), KindHierarchyRank(b.finding.kind);
    ra > rb || (ra == rb && Older(a, b))
  }

  /** Names are unique keys in the store, so they identify their rjob. */
  ghost predicate NamesIdentify(xs: set<RJob>) {
    forall x, y :: x in xs && y in xs && x.name == y.name ==> x == y
  }

  /** `better` orders `xs` strictly and totally. */
  ghost predicate StrictTotal<T(!new)>(better: (T, T) -> bool, xs: set<T>) {
    && (forall x, y :: x in xs && y in xs ==> !(better(x, y) && better(y, x)))
    && (forall x, y :: x in xs && y in xs && x != y ==> better(x, y) || better(y, x))
    && (forall x, y, z :: x in xs && y in xs && z in xs && better(x, y) && better(y, z) ==> better(x, z))
  }

  lemma OrdersAreStrictTotal(xs: set<RJob>)
    requires NamesIdentify(xs)
    ensures StrictTotal(Older, xs)
    ensures StrictTotal(Outranks, xs)
  {
    forall x, y | x in xs && y in xs ensures !(Older(x, y) && Older(y, x)) {
      StrLessAsymmetric(x.name, y.name);
    }
    forall x, y | x in xs && y in xs && x != y ensures Older(x, y) || Older(y, x) {
      StrLessTotal(x.name, y.name);
    }
    forall x, y, z | x in xs && y in xs && z in xs && Older(x, y) && Older(y, z) ensures Older(x, z) {
      if x.created == y.created == z.created {
        StrLessTransitive(x.name, y.name, z.name);
      }
    }
    forall x, y, z | x in xs && y in xs && z in xs && Outranks(x, y) && Outranks(y, z) ensures Outranks(x, z) {
    }
  }

  /** `b` beats every other member of `xs`. */
  ghost predicate IsBest(better: (RJob, RJob) -> bool, b: RJob, xs: set<RJob>) {
    b in xs && forall x :: x in xs && x != b ==> better(b, x)
  }

  /** Created first, and of those created at that instant the first by name. */
  ghost predicate Eldest(b: RJob, xs: set<RJob>) {
    && b in xs
    && (forall x :: x in xs ==> b.created <= x.created)
    && (forall x :: x in xs && x != b && x.created == b.created ==> Precedes(b.name, x.name))
  }

  /** Of the highest rank, and the eldest of that rank. */
  ghost predicate Elected(b: RJob, xs: set<RJob>) {
    && (forall x :: x in xs ==> KindHierarchyRank(x.finding.kind) <= KindHierarchyRank(b.finding.kind))
    && Eldest(b, set x | x in xs && KindHierarchyRank(x.finding.kind) == KindHierarchyRank(b.finding.kind))
  }

  /** Beating every other member pairwise is being eldest, and elected. */
  lemma BestIsElected(b: RJob, xs: set<RJob>)
    ensures IsBest(Older, b, xs) <==> Eldest(b, xs)
    ensures IsBest(Outranks, b, xs) <==> Elected(b, xs)
  {
    forall n ensures StrLess(b.name, n) <==> Precedes(b.name, n) {
      StrLessIsLexicographic(b.name, n);
    }
    var peers := set x | x in xs && KindHierarchyRank(x.finding.kind) == KindHierarchyRank(b.finding.kind);
    assert IsBest(Older, b, peers) <==> Eldest(b, peers);
    if Elected(b, xs) {
      forall x | x in xs && x != b ensures Outranks(b, x) {
        assert x in peers || KindHierarchyRank(x.finding.kind) < KindHierarchyRank(b.finding.kind);
      }
    }
    if IsBest(Outranks, b, xs) {
      forall x | x in xs ensures KindHierarchyRank(x.finding.kind) <= KindHierarchyRank(b.finding.kind) {
        assert x == b || Outranks(b, x);
      }
    }
  }

  lemma {:induction false} BestExists(better: (RJob, RJob) -> bool, xs: set<RJob>) returns (b: RJob)
    requires StrictTotal(better, xs) && xs != {}
    ensures IsBest(better, b, xs)
  {
    var x :| x in xs;
    var rest := xs - {x};
    assert forall a :: a in xs ==> a == x || a in rest;
    if rest == {} {
      b := x;
    } else {
      assert forall a :: a in rest ==> a in xs;
      var c := BestExists(better, rest);
      b := if better(x, c) then x else c;
    }
  }

  /** The winner of a left-to-right scan that replaces the incumbent by anything better. */
  function Pick(better: (RJob, RJob) -> bool, xs: seq<RJob>): (b: RJob)
    requires xs != []
    ensures b in xs
  {
    var last := xs[|xs| - 1];
    if |xs| == 1 then last
    else
      var b := Pick(better, xs[..|xs| - 1]);
      if better(last, b) then last else b
  }

  lemma PickStep(better: (RJob, RJob) -> bool, xs: seq<RJob>, i: nat)
    requires 0 < i < |xs|
    ensures Pick(better, xs[..i + 1]) ==
            var b := Pick(better, xs[..i]); if better(xs[i], b) then xs[i] else b
  {
    assert xs[..i + 1][..i] == xs[..i];
  }

  function Elems(xs: seq<RJob>): set<RJob> { set x | x in xs }

  /** The scan finds the one best element ... */
  lemma {:induction false} PickIsBest(better: (RJob, RJob) -> bool, xs: seq<RJob>)
    requires xs != [] && StrictTotal(better, Elems(xs))
    ensures IsBest(better, Pick(better, xs), Elems(xs))
  {
    if |xs| > 1 {
      var front := xs[..|xs| - 1];
      assert forall x :: x in Elems(front) ==> x in Elems(xs);
      PickIsBest(better, front);
      assert forall x :: x in Elems(xs) ==> x in Elems(front) || x == xs[|xs| - 1];
    }
  }

  /** ... so its result depends on the elements alone, not on how they were listed. */
  lemma PickOrderFree(better: (RJob, RJob) -> bool, xs: seq<RJob>, ys: seq<RJob>)
    requires xs != [] && Elems(xs) == Elems(ys) && StrictTotal(better, Elems(xs))
    ensures ys != [] && Pick(better, xs) == Pick(better, ys)
  {
    assert xs[0] in Elems(ys);
    PickIsBest(better, xs);
    PickIsBest(better, ys);
  }
}
