/** Primary election does not depend on how the API server orders its lists, nor on which
    member of a group asks. */
module Election {
  import opened Types
  import opened Seqs
  import opened Orders
  import opened Sorting
  import opened Rules
  import opened Deadlock

  /** Equal up to the order of the members. */
  ghost predicate SameResult(x: RuleResult, y: RuleResult) {
    match (x, y)
    case (Match(p, ms), Match(q, ns)) => p == q && multiset(ms) == multiset(ns)
    case _ => x == y
  }

  /** Equal up to the order of the group's members and findings. */
  ghost predicate SameVerdict(v: Verdict, w: Verdict) {
    match (v, w)
    case (Grouped(g), Grouped(h)) =>
      && g.id == h.id && g.primary == h.primary && g.rule == h.rule
      && multiset(g.correlated) == multiset(h.correlated)
      && multiset(g.findings) == multiset(h.findings)
    case _ => v == w
  }

  /** Any two members of one group elect the same primary, whoever is the candidate and however
      the others are listed. */
  lemma SelectPrimaryAgrees(c: RJob, others: seq<RJob>, d: RJob, others': seq<RJob>)
    requires Elems([c] + others) == Elems([d] + others') && NamesIdentify(Elems([c] + others))
    ensures Pick(Outranks, [c] + others) == Pick(Outranks, [d] + others')
    ensures Pick(Older, [c] + others) == Pick(Older, [d] + others')
    ensures forall b :: IsBest(Outranks, b, Elems([c] + others)) ==> b == Pick(Outranks, [c] + others)
  {
    OrdersAreStrictTotal(Elems([c] + others));
    PickOrderFree(Outranks, [c] + others, [d] + others');
    PickOrderFree(Older, [c] + others, [d] + others');
    PickIsBest(Outranks, [c] + others);
  }

  lemma ParentOrderFree(c: RJob, xs: seq<RJob>, ys: seq<RJob>)
    requires multiset(xs) == multiset(ys) && NamesIdentify(Elems([c] + xs))
    ensures SameResult(SameNamespaceParent(c, xs), SameNamespaceParent(c, ys))
  {
    var mx, my := Filter(SharesParent(c), xs), Filter(SharesParent(c), ys);
    FilterPermutes(SharesParent(c), xs, ys);
    SameElems(mx, my);
    MapPermutes(UIDOf(), mx, my);
    SameElems([c] + mx, [c] + my);
    forall x | x in mx ensures x in Elems([c] + xs) {
      FilterMember(SharesParent(c), xs, x);
    }
    SelectPrimaryAgrees(c, mx, c, my);
  }

  lemma ClaimsOrderFree(c: RJob, xs: seq<RJob>, ys: seq<RJob>, pods: Pods)
    requires multiset(xs) == multiset(ys) && NamesIdentify(Elems([c] + xs))
    ensures SameResult(PodCandidate(c, xs, pods), PodCandidate(c, ys, pods))
  {
    var inNamespace := IsClaimIn(c.finding.namespace);
    var cx, cy := Filter(inNamespace, xs), Filter(inNamespace, ys);
    FilterPermutes(inNamespace, xs, ys);
    match ReadPod(pods, c.finding.namespace, c.finding.name)
    case Found(names) =>
      var mx, my := Filter(NamedIn(names), cx), Filter(NamedIn(names), cy);
      FilterPermutes(NamedIn(names), cx, cy);
      SameElems(mx, my);
      forall x | x in mx ensures x in Elems([c] + xs) {
        FilterMember(NamedIn(names), cx, x);
        FilterMember(inNamespace, xs, x);
      }
      OrdersAreStrictTotal(Elems(mx));
      SortSorts(Older, mx, Elems(mx));
      SortSorts(Older, my, Elems(my));
      forall x | x in Sort(Older, mx) ensures x in Elems(mx) {
        assert x in multiset(Sort(Older, mx));
      }
      SortedUnique(Older, Sort(Older, mx), Sort(Older, my), Elems(mx));
    case _ =>
  }

  lemma PodsOrderFree(c: RJob, xs: seq<RJob>, ys: seq<RJob>, pods: Pods)
    requires multiset(xs) == multiset(ys)
    ensures SameResult(PVCCandidate(c, xs, pods), PVCCandidate(c, ys, pods))
  {
    FilterPermutes(ReadFails(pods, c), xs, ys);
    FilterPermutes(MountsClaim(pods, c), xs, ys);
    MapPermutes(UIDOf(), Filter(MountsClaim(pods, c), xs), Filter(MountsClaim(pods, c), ys));
  }

  lemma NodeOrderFree(c: RJob, xs: seq<RJob>, ys: seq<RJob>, threshold: int)
    requires multiset(xs) == multiset(ys) && NamesIdentify(Elems([c] + xs))
    ensures SameResult(MultiPodSameNode(c, xs, threshold), MultiPodSameNode(c, ys, threshold))
  {
    var ax, ay := [c] + xs, [c] + ys;
    assert multiset(ax) == multiset(ay);
    if threshold > 0 {
      var qx, qy := QualifyingNodes(ax, threshold), QualifyingNodes(ay, threshold);
      NodesPermute(ax, ay, threshold);
      if qx != [] {
        LeastString(qx, qy);
        var onNode := OnNode(Sort(StrLess, qx)[0]);
        OldestOrderFree(onNode, ax, ay);
      }
    }
  }

  lemma OldestOrderFree(keep: RJob -> bool, xs: seq<RJob>, ys: seq<RJob>)
    requires multiset(xs) == multiset(ys) && NamesIdentify(Elems(xs))
    ensures multiset(Map(UIDOf(), Filter(keep, xs))) == multiset(Map(UIDOf(), Filter(keep, ys)))
    ensures Filter(keep, xs) == [] <==> Filter(keep, ys) == []
    ensures Filter(keep, xs) != [] ==> Pick(Older, Filter(keep, xs)) == Pick(Older, Filter(keep, ys))
  {
    var px, py := Filter(keep, xs), Filter(keep, ys);
    FilterPermutes(keep, xs, ys);
    MapPermutes(UIDOf(), px, py);
    SameElems(px, py);
    forall x | x in px ensures x in Elems(xs) {
      FilterMember(keep, xs, x);
    }
    if px != [] {
      OrdersAreStrictTotal(Elems(px));
      PickOrderFree(Older, px, py);
    }
  }

  lemma RuleOrderFree(rule: Rule, c: RJob, xs: seq<RJob>, ys: seq<RJob>, pods: Pods)
    requires multiset(xs) == multiset(ys) && NamesIdentify(Elems([c] + xs))
    ensures SameResult(Apply(rule, c, xs, pods), Apply(rule, c, ys, pods))
  {
    match rule
    case PVCPodRule =>
      ClaimsOrderFree(c, xs, ys, pods);
      PodsOrderFree(c, xs, ys, pods);
    case SameNamespaceParentRule =>
      ParentOrderFree(c, xs, ys);
    case MultiPodSameNodeRule(threshold) =>
      NodeOrderFree(c, xs, ys, threshold);
  }

  lemma GroupOrderFree(rule: Rule, p: UID, ms: seq<UID>, ns: seq<UID>, c: RJob, xs: seq<RJob>, ys: seq<RJob>, id: string)
    requires multiset(xs) == multiset(ys) && multiset(ms) == multiset(ns)
    ensures SameVerdict(Grouped(GroupOf(rule, p, ms, c, xs, id)), Grouped(GroupOf(rule, p, ns, c, ys, id)))
  {
    forall u ensures u in ms <==> u in ns {
      assert u in ms <==> u in multiset(ms);
      assert u in ns <==> u in multiset(ns);
    }
    assert ms != [] ==> ms[0] in ns;
    assert ns != [] ==> ns[0] in ms;
    FilterAgrees(InGroup(ms, p), InGroup(ns, p), ys);
    FilterPermutes(InGroup(ms, p), xs, ys);
    MapPermutes(FindingOf(), Filter(InGroup(ms, p), xs), Filter(InGroup(ns, p), ys));
    FilterPermutes(NotPrimary(p), ms, ns);
    FilterPermutes(IsNot(p), xs, ys);
    var self := if c.uid != p then [c] else [];
    MapPermutes(FindingOf(), self + Filter(IsNot(p), xs), self + Filter(IsNot(p), ys));
    MapPermutes(UIDOf(), self + Filter(IsNot(p), xs), self + Filter(IsNot(p), ys));
  }

  /** The correlator's verdict, with any rules in any order, is the same for every listing of the
      same peers. */
  lemma {:induction false} EvaluateOrderFree(rules: seq<Rule>, c: RJob, xs: seq<RJob>, ys: seq<RJob>, pods: Pods, id: string)
    requires multiset(xs) == multiset(ys) && NamesIdentify(Elems([c] + xs))
    ensures SameVerdict(Evaluate(rules, c, xs, pods, id), Evaluate(rules, c, ys, pods, id))
  {
    if rules != [] {
      RuleOrderFree(rules[0], c, xs, ys, pods);
      var x, y := Apply(rules[0], c, xs, pods), Apply(rules[0], c, ys, pods);
      if x.Match? {
        GroupOrderFree(rules[0], x.primary, x.members, y.members, c, xs, ys, id);
      } else {
        EvaluateOrderFree(rules[1..], c, xs, ys, pods, id);
      }
    }
  }
}
