/** Correlation cannot deadlock. A candidate that is not the primary of its group is held until
    the primary acts, so "waits for" is a relation on the Pending rjobs; under the default rules
    it has no cycle and someone may always proceed. */
module Deadlock {
  import opened Types
  import opened Seqs
  import opened Orders
  import opened Sorting
  import opened Rules

  /** The Pending rjobs, the pods as they read, and the order in which each candidate happens to
      see its peers listed. */
  datatype Arena = Arena(pool: set<RJob>, threshold: int, pods: Pods, order: RJob -> seq<RJob>)

  ghost predicate IsPool(xs: set<RJob>) {
    NamesIdentify(xs) && forall x, y :: x in xs && y in xs && x.uid == y.uid ==> x == y
  }

  ghost predicate PeerList(pool: set<RJob>, c: RJob, peers: seq<RJob>) {
    multiset(peers) == multiset(pool - {c})
  }

  ghost predicate ReadsCleanly(pods: Pods) {
    forall k :: k in pods ==> !pods[k].ReadError?
  }

  ghost predicate Valid(a: Arena) {
    && IsPool(a.pool)
    && a.threshold > 0
    && ReadsCleanly(a.pods)
    && forall c :: c in a.pool ==> PeerList(a.pool, c, a.order(c))
  }

  /** The correlator's verdict on `c`; the group identifier plays no part in it. */
  ghost function VerdictOf(a: Arena, c: RJob): Verdict {
    Evaluate(DefaultRules(a.threshold), c, a.order(c), a.pods, "")
  }

  /** `c` is held because its group's primary is `p`. */
  ghost predicate WaitsFor(a: Arena, c: RJob, p: RJob) {
    c in a.pool && p in a.pool && p != c && VerdictOf(a, c).Grouped? && VerdictOf(a, c).group.primary == p.uid
  }

  /** `c` is uncorrelated, or the primary of its own group. */
  ghost predicate Proceeds(a: Arena, c: RJob) {
    c in a.pool &&
    (VerdictOf(a, c).NoGroup? || (VerdictOf(a, c).Grouped? && VerdictOf(a, c).group.primary == c.uid))
  }

  // ---- What each rule can name as primary ----

  /** The result of the first rule that does not pass. */
  ghost function Decide(threshold: int, c: RJob, peers: seq<RJob>, pods: Pods): RuleResult {
    var pvc, parent := PVCPod(c, peers, pods), SameNamespaceParent(c, peers);
    if pvc != NoMatch then pvc else if parent != NoMatch then parent else MultiPodSameNode(c, peers, threshold)
  }

  lemma EvaluateStep(rule: Rule, rest: seq<Rule>, c: RJob, peers: seq<RJob>, pods: Pods, id: string)
    ensures Evaluate([rule] + rest, c, peers, pods, id) ==
            match Apply(rule, c, peers, pods)
            case RuleError => EvalError
            case NoMatch => Evaluate(rest, c, peers, pods, id)
            case Match(p, ms) => Grouped(GroupOf(rule, p, ms, c, peers, id))
  {
    assert ([rule] + rest)[1..] == rest;
  }

  lemma EvaluateDecides(threshold: int, c: RJob, peers: seq<RJob>, pods: Pods, id: string)
    ensures var v := Evaluate(DefaultRules(threshold), c, peers, pods, id);
            match Decide(threshold, c, peers, pods)
            case RuleError => v == EvalError
            case NoMatch => v == NoGroup
            case Match(p, ms) => v.Grouped? && exists rule :: v.group == GroupOf(rule, p, ms, c, peers, id)
  {
    var r0, r1, r2 := PVCPodRule, SameNamespaceParentRule, MultiPodSameNodeRule(threshold);
    var last := [r2] + [];
    var rest := [r1] + last;
    assert DefaultRules(threshold) == [r0] + rest;
    EvaluateStep(r2, [], c, peers, pods, id);
    EvaluateStep(r1, last, c, peers, pods, id);
    EvaluateStep(r0, rest, c, peers, pods, id);
  }

  /** A group names the primary the deciding rule elected and correlates that rule's other members. */
  lemma VerdictGroups(threshold: int, c: RJob, peers: seq<RJob>, pods: Pods, id: string)
    ensures var v, d := Evaluate(DefaultRules(threshold), c, peers, pods, id), Decide(threshold, c, peers, pods);
            d.Match? ==> && v.Grouped? && v.group.primary == d.primary && v.group.id == id
                         && forall u :: u in v.group.correlated <==> u in d.members && u != d.primary
  {
    var v, d := Evaluate(DefaultRules(threshold), c, peers, pods, id), Decide(threshold, c, peers, pods);
    EvaluateDecides(threshold, c, peers, pods, id);
    if d.Match? {
      MembersNamed(threshold, c, peers, pods);
      var rule :| v.group == GroupOf(rule, d.primary, d.members, c, peers, id);
      GroupCorrelates(rule, d.primary, d.members, c, peers, id);
    }
  }

  lemma MembersNamed(threshold: int, c: RJob, peers: seq<RJob>, pods: Pods)
    ensures var d := Decide(threshold, c, peers, pods); d.Match? ==> d.members != []
  {
  }

  lemma PeersAre(pool: set<RJob>, c: RJob, peers: seq<RJob>, x: RJob)
    requires PeerList(pool, c, peers)
    ensures x in peers <==> x in pool && x != c
  {
    assert x in peers <==> x in multiset(peers);
  }

  /** A pod held by the PVC rule waits for a claim it mounts. */
  lemma PodNamesClaim(a: Arena, c: RJob) returns (q: RJob)
    requires Valid(a) && c in a.pool && PVCPod(c, a.order(c), a.pods).Match? && c.finding.kind == POD
    ensures q in a.pool && q != c && q.uid == PVCPod(c, a.order(c), a.pods).primary
    ensures Mounts(a.pods, c.finding, q.finding)
  {
    var claims := Filter(IsClaimIn(c.finding.namespace), a.order(c));
    var names := ReadPod(a.pods, c.finding.namespace, c.finding.name).claims;
    var matched := Filter(NamedIn(names), claims);
    q := Sort(Older, matched)[0];
    assert q in multiset(matched);
    FilterMember(NamedIn(names), claims, q);
    FilterMember(IsClaimIn(c.finding.namespace), a.order(c), q);
    PeersAre(a.pool, c, a.order(c), q);
  }

  /** A mounted claim leads its own group. */
  lemma ClaimLeads(a: Arena, q: RJob, c: RJob)
    requires Valid(a) && c in a.pool && q in a.pool && c != q && Mounts(a.pods, c.finding, q.finding)
    ensures PVCPod(q, a.order(q), a.pods).Match? && PVCPod(q, a.order(q), a.pods).primary == q.uid
  {
    var peers := a.order(q);
    PeersAre(a.pool, q, peers, c);
    FilterMember(MountsClaim(a.pods, q), peers, c);
    NoReadFails(a, q);
  }

  lemma NoReadFails(a: Arena, q: RJob)
    requires Valid(a)
    ensures Filter(ReadFails(a.pods, q), a.order(q)) == []
  {
    var bad := Filter(ReadFails(a.pods, q), a.order(q));
    if bad != [] {
      FilterMember(ReadFails(a.pods, q), a.order(q), bad[0]);
    }
  }

  /** With clean reads the PVC rule gives a result. */
  lemma RuleOneNeverFails(a: Arena, c: RJob)
    requires Valid(a) && c in a.pool
    ensures PVCPod(c, a.order(c), a.pods) != RuleError
  {
    NoReadFails(a, c);
    CleanPodCandidate(c, a.order(c), a.pods);
  }

  lemma CleanPodCandidate(c: RJob, peers: seq<RJob>, pods: Pods)
    requires ReadsCleanly(pods)
    ensures PodCandidate(c, peers, pods) != RuleError
  {
    assert !ReadPod(pods, c.finding.namespace, c.finding.name).ReadError?;
  }

  /** The parent rule names the candidate or a related rjob that outranks it. */
  lemma ParentNames(a: Arena, c: RJob) returns (q: RJob)
    requires Valid(a) && c in a.pool && SameNamespaceParent(c, a.order(c)).Match?
    ensures q in a.pool && q.uid == SameNamespaceParent(c, a.order(c)).primary
    ensures q == c || (Outranks(q, c) && ParentsRelated(q.finding, c.finding))
  {
    var matched := Filter(SharesParent(c), a.order(c));
    var all := [c] + matched;
    q := Pick(Outranks, all);
    forall x | x in Elems(all) ensures x in a.pool && (x == c || ParentsRelated(x.finding, c.finding)) {
      FilterMember(SharesParent(c), a.order(c), x);
      PeersAre(a.pool, c, a.order(c), x);
    }
    OrdersAreStrictTotal(Elems(all));
    PickIsBest(Outranks, all);
    assert c in Elems(all);
  }

  /** Being related is mutual, so whoever is named by the parent rule is matched by it too. */
  lemma RelatedMatches(a: Arena, q: RJob, c: RJob)
    requires Valid(a) && c in a.pool && q in a.pool && c != q && ParentsRelated(q.finding, c.finding)
    ensures SameNamespaceParent(q, a.order(q)).Match?
  {
    PeersAre(a.pool, q, a.order(q), c);
    FilterMember(SharesParent(q), a.order(q), c);
  }

  lemma EveryoneSeesThePool(a: Arena, c: RJob)
    requires Valid(a) && c in a.pool
    ensures multiset([c] + a.order(c)) == multiset(a.pool)
  {
    assert a.pool == (a.pool - {c}) + {c};
    assert multiset([c] + a.order(c)) == multiset{c} + multiset(a.pool - {c});
  }

  /** The node rule gives every candidate the same primary, a member of the pool. */
  lemma NodeRuleUniform(a: Arena, c: RJob, d: RJob)
    requires Valid(a) && c in a.pool && d in a.pool
    ensures var x, y := MultiPodSameNode(c, a.order(c), a.threshold), MultiPodSameNode(d, a.order(d), a.threshold);
            (x.Match? <==> y.Match?) && (x.Match? ==> x.primary == y.primary)
  {
    var xs, ys := [c] + a.order(c), [d] + a.order(d);
    EveryoneSeesThePool(a, c);
    EveryoneSeesThePool(a, d);
    NodesPermute(xs, ys, a.threshold);
    if QualifyingNodes(xs, a.threshold) != [] {
      var node := Sort(StrLess, QualifyingNodes(xs, a.threshold))[0];
      LeastString(QualifyingNodes(xs, a.threshold), QualifyingNodes(ys, a.threshold));
      FilterPermutes(OnNode(node), xs, ys);
      var px, py := Filter(OnNode(node), xs), Filter(OnNode(node), ys);
      SameElems(px, py);
      if px != [] {
        OnNodeInPool(a, c, node);
        OrdersAreStrictTotal(Elems(px));
        PickOrderFree(Older, px, py);
      }
    }
  }

  lemma SameElems(xs: seq<RJob>, ys: seq<RJob>)
    requires multiset(xs) == multiset(ys)
    ensures Elems(xs) == Elems(ys)
    ensures xs == [] <==> ys == []
  {
    forall x ensures x in xs <==> x in ys {
      assert x in xs <==> x in multiset(xs);
      assert x in ys <==> x in multiset(ys);
    }
    assert xs != [] ==> xs[0] in ys;
    assert ys != [] ==> ys[0] in xs;
  }

  lemma NodesPermute(xs: seq<RJob>, ys: seq<RJob>, threshold: int)
    requires multiset(xs) == multiset(ys) && threshold > 0
    ensures forall n :: n in QualifyingNodes(xs, threshold) <==> n in QualifyingNodes(ys, threshold)
    ensures QualifyingNodes(xs, threshold) == [] <==> QualifyingNodes(ys, threshold) == []
  {
    var qx, qy := QualifyingNodes(xs, threshold), QualifyingNodes(ys, threshold);
    forall n ensures n in qx <==> n in qy {
      NodeListed(xs, threshold, n);
      NodeListed(ys, threshold, n);
      FilterPermutes(OnNode(n), xs, ys);
    }
    assert qx != [] ==> qx[0] in qy;
    assert qy != [] ==> qy[0] in qx;
  }

  lemma OnNodeInPool(a: Arena, c: RJob, node: string)
    requires Valid(a) && c in a.pool
    ensures Elems(Filter(OnNode(node), [c] + a.order(c))) <= a.pool
  {
    var all := [c] + a.order(c);
    forall x | x in Filter(OnNode(node), all) ensures x in a.pool {
      FilterMember(OnNode(node), all, x);
      PeersAre(a.pool, c, a.order(c), x);
    }
  }

  lemma NodeRuleNames(a: Arena, c: RJob) returns (q: RJob)
    requires Valid(a) && c in a.pool && MultiPodSameNode(c, a.order(c), a.threshold).Match?
    ensures q in a.pool && q.uid == MultiPodSameNode(c, a.order(c), a.threshold).primary
  {
    var all := [c] + a.order(c);
    var node := Sort(StrLess, QualifyingNodes(all, a.threshold))[0];
    q := Pick(Older, Filter(OnNode(node), all));
    OnNodeInPool(a, c, node);
    assert q in Elems(Filter(OnNode(node), all));
  }

  // ---- Waiting descends ----

  /** 0: not held; otherwise the position of the rule that holds `c`. */
  ghost function Tier(a: Arena, c: RJob): nat {
    var pvc, parent := PVCPod(c, a.order(c), a.pods), SameNamespaceParent(c, a.order(c));
    var d := Decide(a.threshold, c, a.order(c), a.pods);
    if !d.Match? || d.primary == c.uid then 0
    else if pvc != NoMatch then 1
    else if parent != NoMatch then 2
    else 3
  }

  /** The well-founded order that waiting follows. */
  ghost predicate Below(a: Arena, p: RJob, c: RJob) {
    Tier(a, p) < Tier(a, c) || (Tier(a, p) == Tier(a, c) == 2 && Outranks(p, c))
  }

  lemma WaitingIsDeciding(a: Arena, c: RJob)
    requires Valid(a) && c in a.pool
    ensures Proceeds(a, c) <==> Tier(a, c) == 0
    ensures Tier(a, c) != 0 ==> Decide(a.threshold, c, a.order(c), a.pods).Match?
    ensures forall p :: WaitsFor(a, c, p) ==> Tier(a, c) != 0 && Decide(a.threshold, c, a.order(c), a.pods).primary == p.uid
  {
    EvaluateDecides(a.threshold, c, a.order(c), a.pods, "");
    RuleOneNeverFails(a, c);
  }

  /** The rjob a held candidate waits for exists, and lies strictly below it. */
  lemma HeldBySomeoneBelow(a: Arena, c: RJob) returns (p: RJob)
    requires Valid(a) && c in a.pool && Tier(a, c) != 0
    ensures p in a.pool && p.uid == Decide(a.threshold, c, a.order(c), a.pods).primary && Below(a, p, c)
  {
    if Tier(a, c) == 1 {
      p := HeldByClaim(a, c);
    } else if Tier(a, c) == 2 {
      p := HeldByParent(a, c);
    } else {
      p := HeldByNode(a, c);
    }
  }

  /** Held by the first rule, a pod waits for a claim that is not held. */
  lemma HeldByClaim(a: Arena, c: RJob) returns (p: RJob)
    requires Valid(a) && c in a.pool && Tier(a, c) == 1
    ensures p in a.pool && p.uid == Decide(a.threshold, c, a.order(c), a.pods).primary && Tier(a, p) == 0
  {
    assert c.finding.kind == POD && PVCPod(c, a.order(c), a.pods).Match?;
    p := PodNamesClaim(a, c);
    ClaimLeads(a, p, c);
  }

  /** Held by the second, an rjob waits for one that outranks it and is held by no later rule. */
  lemma HeldByParent(a: Arena, c: RJob) returns (p: RJob)
    requires Valid(a) && c in a.pool && Tier(a, c) == 2
    ensures p in a.pool && p.uid == Decide(a.threshold, c, a.order(c), a.pods).primary
    ensures Tier(a, p) <= 2 && Outranks(p, c)
  {
    assert SameNamespaceParent(c, a.order(c)).Match?;
    p := ParentNames(a, c);
    assert p != c;
    MatchedByParent(a, p, c);
  }

  lemma MatchedByParent(a: Arena, p: RJob, c: RJob)
    requires Valid(a) && c in a.pool && p in a.pool && c != p && ParentsRelated(p.finding, c.finding)
    ensures Tier(a, p) <= 2
  {
    RelatedMatches(a, p, c);
  }

  /** Held by the third, an rjob waits for the primary of the node, whom that rule does not hold. */
  lemma HeldByNode(a: Arena, c: RJob) returns (p: RJob)
    requires Valid(a) && c in a.pool && Tier(a, c) == 3
    ensures p in a.pool && p.uid == Decide(a.threshold, c, a.order(c), a.pods).primary && Tier(a, p) < 3
  {
    NodeDecides(a, c);
    p := NodeRuleNames(a, c);
    NotHeldByNode(a, c, p);
  }

  lemma NodeDecides(a: Arena, c: RJob)
    requires Tier(a, c) == 3
    ensures var d := MultiPodSameNode(c, a.order(c), a.threshold);
            d.Match? && d.primary != c.uid && Decide(a.threshold, c, a.order(c), a.pods) == d
  {
  }

  lemma NotHeldByNode(a: Arena, c: RJob, p: RJob)
    requires Valid(a) && c in a.pool && p in a.pool && MultiPodSameNode(c, a.order(c), a.threshold).Match?
    requires p.uid == MultiPodSameNode(c, a.order(c), a.threshold).primary
    ensures Tier(a, p) < 3
  {
    NodeRuleLeads(a, c, p);
    HeldByNodeWaits(a, p);
  }

  lemma NodeRuleLeads(a: Arena, c: RJob, p: RJob)
    requires Valid(a) && c in a.pool && p in a.pool && MultiPodSameNode(c, a.order(c), a.threshold).Match?
    requires p.uid == MultiPodSameNode(c, a.order(c), a.threshold).primary
    ensures MultiPodSameNode(p, a.order(p), a.threshold).Match? && MultiPodSameNode(p, a.order(p), a.threshold).primary == p.uid
  {
    NodeRuleUniform(a, c, p);
  }

  lemma HeldByNodeWaits(a: Arena, p: RJob)
    ensures Tier(a, p) == 3 ==> MultiPodSameNode(p, a.order(p), a.threshold).Match?
                                && MultiPodSameNode(p, a.order(p), a.threshold).primary != p.uid
    ensures Tier(a, p) <= 3
  {
  }

  /** Every wait goes strictly down. */
  lemma WaitingDescends(a: Arena, c: RJob, p: RJob)
    requires Valid(a) && WaitsFor(a, c, p)
    ensures Below(a, p, c)
  {
    WaitingIsDeciding(a, c);
    var q := HeldBySomeoneBelow(a, c);
    assert p == q;
  }

  ghost predicate WaitingPath(a: Arena, path: seq<RJob>) {
    forall i :: 0 <= i < |path| - 1 ==> WaitsFor(a, path[i], path[i + 1])
  }

  /** No chain of waits, however long, returns to where it began. */
  lemma {:induction false} NoWaitingCycle(a: Arena, path: seq<RJob>)
    requires Valid(a) && |path| >= 2 && WaitingPath(a, path)
    ensures path[0] != path[|path| - 1]
    ensures Below(a, path[|path| - 1], path[0])
  {
    var n := |path|;
    PathEnds(a, path);
    WaitingDescends(a, path[n - 2], path[n - 1]);
    if n > 2 {
      var front := path[..n - 1];
      assert front[0] == path[0] && front[|front| - 1] == path[n - 2];
      NoWaitingCycle(a, front);
      BelowDescends(a, path[n - 1], path[n - 2], path[0]);
    }
    NotBelowItself(a, path[0]);
  }

  lemma PathEnds(a: Arena, path: seq<RJob>)
    requires |path| >= 2 && WaitingPath(a, path)
    ensures path[0] in a.pool && path[|path| - 2] in a.pool && path[|path| - 1] in a.pool
    ensures WaitsFor(a, path[|path| - 2], path[|path| - 1])
    ensures WaitingPath(a, path[..|path| - 1])
  {
    var n := |path|;
    assert WaitsFor(a, path[0], path[0 + 1]) && WaitsFor(a, path[n - 2], path[n - 2 + 1]);
    var front := path[..n - 1];
    forall i | 0 <= i < |front| - 1 ensures WaitsFor(a, front[i], front[i + 1]) {
      assert front[i] == path[i] && front[i + 1] == path[i + 1];
    }
  }

  lemma BelowDescends(a: Arena, x: RJob, y: RJob, z: RJob)
    requires Valid(a) && x in a.pool && y in a.pool && z in a.pool && Below(a, x, y) && Below(a, y, z)
    ensures Below(a, x, z)
  {
    OrdersAreStrictTotal(a.pool);
  }

  lemma NotBelowItself(a: Arena, x: RJob)
    requires Valid(a) && x in a.pool
    ensures !Below(a, x, x)
  {
    OrdersAreStrictTotal(a.pool);
  }

  /** The best of those held by the parent rule waits for someone held by no later rule than the first. */
  lemma TopParent(a: Arena, c: RJob) returns (p: RJob)
    requires Valid(a) && c in a.pool && Tier(a, c) == 2
    ensures p in a.pool && Tier(a, p) < 2
  {
    var parents := set x | x in a.pool && Tier(a, x) == 2;
    OrdersAreStrictTotal(parents);
    assert c in parents;
    var top := BestExists(Outranks, parents);
    p := HeldBySomeoneBelow(a, top);
    assert Tier(a, p) == 2 ==> p in parents;
  }

  /** In every non-empty pool some rjob is free to proceed. */
  lemma SomeoneProceeds(a: Arena) returns (c: RJob)
    requires Valid(a) && a.pool != {}
    ensures Proceeds(a, c)
  {
    c :| c in a.pool;
    if Tier(a, c) == 3 {
      c := HeldBySomeoneBelow(a, c);
    }
    if Tier(a, c) == 2 {
      c := TopParent(a, c);
    }
    if Tier(a, c) == 1 {
      c := HeldBySomeoneBelow(a, c);
    }
    WaitingIsDeciding(a, c);
  }
}
