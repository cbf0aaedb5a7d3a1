/** The three correlation rules and the correlator that tries them in order. Each rule is a
    function of the candidate, its listed peers and the pods as they read; the methods below
    are the loops that compute them. */
module Rules {
  import opened Types
  import opened Seqs
  import opened Orders
  import opened Sorting

  /** What reading a pod from the API gives. */
  datatype PodRead = Found(claims: set<string>) | NotFound | ReadError

  type Pods = map<Ref, PodRead>

  function ReadPod(pods: Pods, namespace: string, name: string): PodRead {
    if Ref(name, namespace) in pods then pods[Ref(name, namespace)] else NotFound
  }

  datatype Rule =
    | PVCPodRule
    | SameNamespaceParentRule
    | MultiPodSameNodeRule(threshold: int)

  datatype RuleResult = RuleError | NoMatch | Match(primary: UID, members: seq<UID>)

  const POD := "Pod"
  const PVC := "PersistentVolumeClaim"

  function UIDOf(): RJob -> UID { (r: RJob) => r.uid }
  function FindingOf(): RJob -> Finding { (r: RJob) => r.finding }
  function NodeOf(): RJob -> string { (r: RJob) => r.node }

  // ---- SameNamespaceParentRule ----

  /** `b` is `a` or a dash-delimited prefix of it. */
  predicate IsParentPrefix(a: string, b: string) {
    a == b || b + "-" <= a
  }

  predicate ParentsRelated(a: Finding, b: Finding) {
    && a.namespace == b.namespace
    && a.parent != "" && b.parent != ""
    && (IsParentPrefix(a.parent, b.parent) || IsParentPrefix(b.parent, a.parent))
  }

  function SharesParent(c: RJob): RJob -> bool {
    (p: RJob) => p.uid != c.uid && ParentsRelated(c.finding, p.finding)
  }

  function SameNamespaceParent(c: RJob, peers: seq<RJob>): RuleResult {
    var matched := Filter(SharesParent(c), peers);
    if matched == [] then NoMatch
    else Match(Pick(Outranks, [c] + matched).uid, [c.uid] + Map(UIDOf(), matched))
  }

  // ---- PVCPodRule ----

  function IsClaimIn(namespace: string): RJob -> bool {
    (p: RJob) => p.finding.kind == PVC && p.finding.namespace == namespace
  }

  function NamedIn(names: set<string>): RJob -> bool {
    (p: RJob) => p.finding.name in names
  }

  function MountsClaim(pods: Pods, c: RJob): RJob -> bool {
    (p: RJob) =>
      && p.finding.kind == POD && p.finding.namespace == c.finding.namespace
      && ReadPod(pods, c.finding.namespace, p.finding.name).Found?
      && c.finding.name in ReadPod(pods, c.finding.namespace, p.finding.name).claims
  }

  function ReadFails(pods: Pods, c: RJob): RJob -> bool {
    (p: RJob) =>
      && p.finding.kind == POD && p.finding.namespace == c.finding.namespace
      && ReadPod(pods, c.finding.namespace, p.finding.name).ReadError?
  }

  function PodCandidate(c: RJob, peers: seq<RJob>, pods: Pods): RuleResult {
    var claims := Filter(IsClaimIn(c.finding.namespace), peers);
    if claims == [] then NoMatch
    else
      match ReadPod(pods, c.finding.namespace, c.finding.name)
      case ReadError => RuleError
      case NotFound => NoMatch
      case Found(names) =>
        var matched := Filter(NamedIn(names), claims);
        if matched == [] then NoMatch
        else
          var sorted := Sort(Older, matched);
          Match(sorted[0].uid, [c.uid] + Map(UIDOf(), sorted))
  }

  function PVCCandidate(c: RJob, peers: seq<RJob>, pods: Pods): RuleResult {
    if Filter(ReadFails(pods, c), peers) != [] then RuleError
    else
      var matched := Filter(MountsClaim(pods, c), peers);
      if matched == [] then NoMatch
      else Match(c.uid, [c.uid] + Map(UIDOf(), matched))
  }

  function PVCPod(c: RJob, peers: seq<RJob>, pods: Pods): RuleResult {
    if c.finding.kind == POD then PodCandidate(c, peers, pods)
    else if c.finding.kind == PVC then PVCCandidate(c, peers, pods)
    else NoMatch
  }

  // ---- MultiPodSameNodeRule ----

  function Scheduled(): RJob -> bool {
    (r: RJob) => r.finding.kind == POD && r.node != ""
  }

  function OnNode(node: string): RJob -> bool {
    (r: RJob) => r.finding.kind == POD && r.node == node
  }

  function Qualifies(all: seq<RJob>, threshold: int): string -> bool {
    (node: string) => |Filter(OnNode(node), all)| >= threshold
  }

  /** The nodes, one entry per scheduled pod finding, that reach the threshold. */
  function QualifyingNodes(all: seq<RJob>, threshold: int): seq<string> {
    Filter(Qualifies(all, threshold), Map(NodeOf(), Filter(Scheduled(), all)))
  }

  function MultiPodSameNode(c: RJob, peers: seq<RJob>, threshold: int): RuleResult {
    if threshold <= 0 then RuleError
    else
      var all := [c] + peers;
      var nodes := QualifyingNodes(all, threshold);
      if nodes == [] then NoMatch
      else
        var onNode := Filter(OnNode(Sort(StrLess, nodes)[0]), all);
        // a qualifying node has at least `threshold` > 0 pods
        if onNode == [] then NoMatch
        else Match(Pick(Older, onNode).uid, Map(UIDOf(), onNode))
  }

  // ---- Correlator ----

  function Apply(rule: Rule, c: RJob, peers: seq<RJob>, pods: Pods): RuleResult {
    match rule
    case PVCPodRule => PVCPod(c, peers, pods)
    case SameNamespaceParentRule => SameNamespaceParent(c, peers)
    case MultiPodSameNodeRule(threshold) => MultiPodSameNode(c, peers, threshold)
  }

  function DefaultRules(threshold: int): seq<Rule> {
    [PVCPodRule, SameNamespaceParentRule, MultiPodSameNodeRule(threshold)]
  }

  datatype Group = Group(id: string, primary: UID, correlated: seq<UID>, rule: Rule, findings: seq<Finding>)

  datatype Verdict = EvalError | NoGroup | Grouped(group: Group)

  function InGroup(members: seq<UID>, primary: UID): RJob -> bool {
    (p: RJob) => p.uid in members && p.uid != primary
  }

  function NotPrimary(primary: UID): UID -> bool {
    (u: UID) => u != primary
  }

  function IsNot(primary: UID): RJob -> bool {
    (p: RJob) => p.uid != primary
  }

  /** The group a match describes. Without member UIDs every peer is taken to belong. */
  function GroupOf(rule: Rule, primary: UID, members: seq<UID>, c: RJob, peers: seq<RJob>, id: string): Group {
    if members != [] then
      Group(id, primary, Filter(NotPrimary(primary), members), rule,
            (if c.uid in members && c.uid != primary then [c.finding] else [])
            + Map(FindingOf(), Filter(InGroup(members, primary), peers)))
    else
      var others := Filter(IsNot(primary), peers);
      var self := if c.uid != primary then [c] else [];
      Group(id, primary, Map(UIDOf(), self + others), rule, Map(FindingOf(), self + others))
  }

  function Evaluate(rules: seq<Rule>, c: RJob, peers: seq<RJob>, pods: Pods, id: string): Verdict {
    if rules == [] then NoGroup
    else
      match Apply(rules[0], c, peers, pods)
      case RuleError => EvalError
      case NoMatch => Evaluate(rules[1..], c, peers, pods, id)
      case Match(primary, members) => Grouped(GroupOf(rules[0], primary, members, c, peers, id))
  }

  // ---- What the rules match, said of the findings themselves ----

  /** `long` is `short`, a dash, and whatever follows. */
  predicate DashExtends(long: string, short: string) {
    && |short| < |long| && long[|short|] == '-'
    && forall i :: 0 <= i < |short| ==> long[i] == short[i]
  }

  /** In one namespace, both with a parent, and the parents equal or one a dashed extension of the other. */
  predicate SameFamily(a: Finding, b: Finding) {
    && a.namespace == b.namespace && a.parent != "" && b.parent != ""
    && (a.parent == b.parent || DashExtends(a.parent, b.parent) || DashExtends(b.parent, a.parent))
  }

  lemma RelatedIsFamily(a: Finding, b: Finding)
    ensures ParentsRelated(a, b) <==> SameFamily(a, b)
  {
    DashPrefix(a.parent, b.parent);
    DashPrefix(b.parent, a.parent);
  }

  lemma DashPrefix(long: string, short: string)
    ensures short + "-" <= long <==> DashExtends(long, short)
  {
    if DashExtends(long, short) {
      assert long[..|short| + 1] == short + "-";
    }
    if short + "-" <= long {
      assert forall i :: 0 <= i <= |short| ==> long[i] == (short + "-")[i];
    }
  }

  /** The pod of the one finding reads as mounting the claim of the other. */
  predicate Mounts(pods: Pods, pod: Finding, claim: Finding) {
    && pod.kind == "Pod" && claim.kind == "PersistentVolumeClaim" && pod.namespace == claim.namespace
    && Ref(pod.name, pod.namespace) in pods && pods[Ref(pod.name, pod.namespace)].Found?
    && claim.name in pods[Ref(pod.name, pod.namespace)].claims
  }

  /** Reading the finding's pod is an error other than its absence. */
  predicate PodFails(pods: Pods, pod: Finding) {
    pod.kind == "Pod" && Ref(pod.name, pod.namespace) in pods && pods[Ref(pod.name, pod.namespace)].ReadError?
  }

  /** How many of the findings are about pods on the node. */
  function PodsOn(all: seq<RJob>, node: string): nat {
    if all == [] then 0
    else (if all[0].finding.kind == "Pod" && all[0].node == node then 1 else 0) + PodsOn(all[1..], node)
  }

  ghost predicate UIDsIdentify(xs: seq<RJob>) {
    forall x, y :: x in xs && y in xs && x.uid == y.uid ==> x == y
  }

  /** `us` lists the UIDs of the candidate and of the rjobs selected, and no others. */
  ghost predicate AreMembers(us: seq<UID>, c: RJob, selected: set<RJob>) {
    forall u :: u in us <==> u == c.uid || exists p :: p in selected && p.uid == u
  }

  lemma MembersListed(c: RJob, matched: seq<RJob>)
    ensures AreMembers([c.uid] + Map(UIDOf(), matched), c, Elems(matched))
  {
    var us := Map(UIDOf(), matched);
    forall u ensures u in us <==> exists p :: p in Elems(matched) && p.uid == u {
      if u in us {
        var i :| 0 <= i < |us| && us[i] == u;
        assert matched[i] in Elems(matched);
      }
      if p :| p in Elems(matched) && p.uid == u {
        var i :| 0 <= i < |matched| && matched[i] == p;
        assert us[i] == u;
      }
    }
  }

  /** The peers the parent rule selects. */
  ghost function Relatives(c: RJob, peers: seq<RJob>): set<RJob> {
    set p | p in peers && p.uid != c.uid && SameFamily(c.finding, p.finding)
  }

  lemma RelativesFiltered(c: RJob, peers: seq<RJob>)
    ensures Elems(Filter(SharesParent(c), peers)) == Relatives(c, peers)
  {
    forall p ensures p in Filter(SharesParent(c), peers) <==> p in Relatives(c, peers) {
      FilterMember(SharesParent(c), peers, p);
      RelatedIsFamily(c.finding, p.finding);
    }
  }

  /** The parent rule matches when there is a relative; its members are the candidate and its relatives,
      led by the one elected among them. */
  lemma ParentRuleMatches(c: RJob, peers: seq<RJob>)
    ensures var res := SameNamespaceParent(c, peers);
            && (res.Match? <==> Relatives(c, peers) != {}) && !res.RuleError?
            && (res.Match? ==> AreMembers(res.members, c, Relatives(c, peers)))
            && (res.Match? && UIDsIdentify(peers) ==> forall p :: p in peers && p.uid != c.uid ==>
                  (p.uid in res.members <==> SameFamily(c.finding, p.finding)))
            && (res.Match? && NamesIdentify({c} + Relatives(c, peers)) ==>
                  exists b :: Elected(b, {c} + Relatives(c, peers)) && b.uid == res.primary)
  {
    var matched := Filter(SharesParent(c), peers);
    RelativesFiltered(c, peers);
    if matched != [] {
      assert matched[0] in Elems(matched);
      MembersListed(c, matched);
      assert Elems([c] + matched) == {c} + Relatives(c, peers);
      if NamesIdentify({c} + Relatives(c, peers)) {
        PickIsElected([c] + matched);
      }
    }
  }

  lemma PickIsElected(xs: seq<RJob>)
    requires xs != [] && NamesIdentify(Elems(xs))
    ensures Elected(Pick(Outranks, xs), Elems(xs)) && Eldest(Pick(Older, xs), Elems(xs))
  {
    OrdersAreStrictTotal(Elems(xs));
    PickIsBest(Outranks, xs);
    PickIsBest(Older, xs);
    BestIsElected(Pick(Outranks, xs), Elems(xs));
    BestIsElected(Pick(Older, xs), Elems(xs));
  }

  /** The claims among the peers that the candidate's pod mounts. */
  ghost function Mounted(c: RJob, peers: seq<RJob>, pods: Pods): set<RJob> {
    set p | p in peers && Mounts(pods, c.finding, p.finding)
  }

  ghost predicate HasClaim(c: RJob, peers: seq<RJob>) {
    exists p :: p in peers && p.finding.kind == "PersistentVolumeClaim" && p.finding.namespace == c.finding.namespace
  }

  lemma ClaimsFiltered(c: RJob, peers: seq<RJob>)
    ensures Filter(IsClaimIn(c.finding.namespace), peers) != [] <==> HasClaim(c, peers)
  {
    var claims := Filter(IsClaimIn(c.finding.namespace), peers);
    if claims != [] {
      FilterMember(IsClaimIn(c.finding.namespace), peers, claims[0]);
    }
    if HasClaim(c, peers) {
      var p :| p in peers && p.finding.kind == "PersistentVolumeClaim" && p.finding.namespace == c.finding.namespace;
      FilterMember(IsClaimIn(c.finding.namespace), peers, p);
    }
  }

  lemma MountedFiltered(c: RJob, peers: seq<RJob>, pods: Pods)
    requires c.finding.kind == POD && ReadPod(pods, c.finding.namespace, c.finding.name).Found?
    ensures var names := ReadPod(pods, c.finding.namespace, c.finding.name).claims;
            Elems(Filter(NamedIn(names), Filter(IsClaimIn(c.finding.namespace), peers))) == Mounted(c, peers, pods)
  {
    var names := ReadPod(pods, c.finding.namespace, c.finding.name).claims;
    var claims := Filter(IsClaimIn(c.finding.namespace), peers);
    forall p ensures p in Filter(NamedIn(names), claims) <==> p in Mounted(c, peers, pods) {
      FilterMember(NamedIn(names), claims, p);
      FilterMember(IsClaimIn(c.finding.namespace), peers, p);
    }
  }

  /** A pod is matched with the claims it mounts, led by the eldest of them; it is an error if there are
      claims to look for and the pod cannot be read. */
  lemma PodRuleMatches(c: RJob, peers: seq<RJob>, pods: Pods)
    requires c.finding.kind == "Pod"
    ensures var res := PVCPod(c, peers, pods);
            && (res.RuleError? <==> PodFails(pods, c.finding) && HasClaim(c, peers))
            && (res.Match? <==> Mounted(c, peers, pods) != {})
            && (res.Match? ==> AreMembers(res.members, c, Mounted(c, peers, pods)))
            && (res.Match? && NamesIdentify(Mounted(c, peers, pods)) ==>
                  exists b :: Eldest(b, Mounted(c, peers, pods)) && b.uid == res.primary)
  {
    ClaimsFiltered(c, peers);
    var read := ReadPod(pods, c.finding.namespace, c.finding.name);
    if Mounted(c, peers, pods) != {} {
      assert HasClaim(c, peers);
    }
    if HasClaim(c, peers) && read.Found? {
      var matched := Filter(NamedIn(read.claims), Filter(IsClaimIn(c.finding.namespace), peers));
      MountedFiltered(c, peers, pods);
      if matched != [] {
        assert matched[0] in Elems(matched);
        var sorted := Sort(Older, matched);
        SortedElems(matched);
        MembersListed(c, sorted);
        if NamesIdentify(Elems(matched)) {
          OrdersAreStrictTotal(Elems(matched));
          OldestIsHead(matched);
          PickIsElected(matched);
        }
      }
    }
  }

  lemma SortedElems(xs: seq<RJob>)
    ensures Elems(Sort(Older, xs)) == Elems(xs)
  {
    forall x ensures x in Sort(Older, xs) <==> x in xs {
      assert x in xs <==> x in multiset(Sort(Older, xs));
    }
  }

  /** The pods among the peers that mount the candidate's claim. */
  ghost function Mounting(c: RJob, peers: seq<RJob>, pods: Pods): set<RJob> {
    set p | p in peers && Mounts(pods, p.finding, c.finding)
  }

  ghost predicate SomePodFails(c: RJob, peers: seq<RJob>, pods: Pods) {
    exists p :: p in peers && p.finding.namespace == c.finding.namespace && PodFails(pods, p.finding)
  }

  /** A claim leads the pods that mount it; it is an error if any pod of its namespace cannot be read. */
  lemma ClaimRuleMatches(c: RJob, peers: seq<RJob>, pods: Pods)
    requires c.finding.kind == "PersistentVolumeClaim"
    ensures var res := PVCPod(c, peers, pods);
            && (res.RuleError? <==> SomePodFails(c, peers, pods))
            && (!res.RuleError? ==> (res.Match? <==> Mounting(c, peers, pods) != {}))
            && (res.Match? ==> res.primary == c.uid && AreMembers(res.members, c, Mounting(c, peers, pods)))
  {
    var bad, matched := Filter(ReadFails(pods, c), peers), Filter(MountsClaim(pods, c), peers);
    if bad != [] {
      FilterMember(ReadFails(pods, c), peers, bad[0]);
    }
    if SomePodFails(c, peers, pods) {
      var p :| p in peers && p.finding.namespace == c.finding.namespace && PodFails(pods, p.finding);
      FilterMember(ReadFails(pods, c), peers, p);
    }
    forall p ensures p in matched <==> p in Mounting(c, peers, pods) {
      FilterMember(MountsClaim(pods, c), peers, p);
    }
    assert Elems(matched) == Mounting(c, peers, pods);
    assert matched != [] ==> matched[0] in Elems(matched);
    MembersListed(c, matched);
  }

  lemma {:induction false} PodsOnCounts(all: seq<RJob>, node: string)
    ensures |Filter(OnNode(node), all)| == PodsOn(all, node)
  {
    if all != [] {
      var front, last := all[..|all| - 1], all[|all| - 1];
      PodsOnCounts(front, node);
      assert all == front + [last];
      PodsOnAppend(front, last, node);
    }
  }

  lemma {:induction false} PodsOnAppend(all: seq<RJob>, r: RJob, node: string)
    ensures PodsOn(all + [r], node) == PodsOn(all, node) + if r.finding.kind == "Pod" && r.node == node then 1 else 0
  {
    if all != [] {
      assert (all + [r])[1..] == all[1..] + [r];
      PodsOnAppend(all[1..], r, node);
    } else {
      assert (all + [r])[1..] == [];
    }
  }

  /** The node has a name and at least `threshold` pods. */
  predicate Crowded(all: seq<RJob>, threshold: int, node: string) {
    node != "" && PodsOn(all, node) >= threshold
  }

  /** The first by name of the crowded nodes. */
  ghost predicate FirstCrowded(all: seq<RJob>, threshold: int, node: string) {
    Crowded(all, threshold, node) && forall n :: Crowded(all, threshold, n) && n != node ==> Precedes(node, n)
  }

  ghost function FindingsOn(all: seq<RJob>, node: string): set<RJob> {
    set x | x in all && x.finding.kind == "Pod" && x.node == node
  }

  /** The match names the pods of the node, led by the eldest. */
  ghost predicate Gathers(res: RuleResult, all: seq<RJob>, node: string)
    requires res.Match?
  {
    && (forall u :: u in res.members <==> exists x :: x in FindingsOn(all, node) && x.uid == u)
    && (NamesIdentify(FindingsOn(all, node)) ==> exists b :: Eldest(b, FindingsOn(all, node)) && b.uid == res.primary)
  }

  /** The same-node rule matches when some node is crowded, and gathers the pods of the first by name. */
  lemma NodeRuleMatches(c: RJob, peers: seq<RJob>, threshold: int)
    ensures var res, all := MultiPodSameNode(c, peers, threshold), [c] + peers;
            && (res.RuleError? <==> threshold <= 0)
            && (threshold > 0 ==> (res.Match? <==> exists n :: Crowded(all, threshold, n)))
            && (res.Match? ==> exists n :: FirstCrowded(all, threshold, n) && Gathers(res, all, n))
  {
    var all := [c] + peers;
    if threshold > 0 {
      var nodes := QualifyingNodes(all, threshold);
      forall n ensures n in nodes <==> Crowded(all, threshold, n) {
        NodeListed(all, threshold, n);
        PodsOnCounts(all, n);
      }
      assert nodes != [] ==> nodes[0] in nodes;
      if nodes != [] {
        var node := Sort(StrLess, nodes)[0];
        assert FirstCrowded(all, threshold, node) by {
          FirstOf(nodes);
        }
        PodsOnCounts(all, node);
        NodePods(all, node);
      }
    }
  }

  lemma FirstOf(nodes: seq<string>)
    requires nodes != []
    ensures Sort(StrLess, nodes)[0] in nodes
    ensures forall n :: n in nodes && n != Sort(StrLess, nodes)[0] ==> Precedes(Sort(StrLess, nodes)[0], n)
  {
    var dom := set n | n in nodes;
    StringsLinear(dom);
    SortHead(StrLess, nodes, dom);
    forall n | n in nodes && n != Sort(StrLess, nodes)[0] ensures Precedes(Sort(StrLess, nodes)[0], n) {
      StrLessIsLexicographic(Sort(StrLess, nodes)[0], n);
    }
  }

  lemma NodePods(all: seq<RJob>, node: string)
    requires Filter(OnNode(node), all) != []
    ensures var onNode := Filter(OnNode(node), all);
            Gathers(Match(Pick(Older, onNode).uid, Map(UIDOf(), onNode)), all, node)
  {
    var onNode := Filter(OnNode(node), all);
    forall x ensures x in onNode <==> x in FindingsOn(all, node) {
      FilterMember(OnNode(node), all, x);
    }
    assert Elems(onNode) == FindingsOn(all, node);
    var us := Map(UIDOf(), onNode);
    forall u ensures u in us <==> exists x :: x in FindingsOn(all, node) && x.uid == u {
      if u in us {
        var i :| 0 <= i < |us| && us[i] == u;
        assert onNode[i] in FindingsOn(all, node);
      }
      if x :| x in FindingsOn(all, node) && x.uid == u {
        var i :| 0 <= i < |onNode| && onNode[i] == x;
        assert us[i] == u;
      }
    }
    if NamesIdentify(FindingsOn(all, node)) {
      PickIsElected(onNode);
    }
  }

  /** A group with named members correlates all of them but its primary. */
  lemma GroupCorrelates(rule: Rule, primary: UID, members: seq<UID>, c: RJob, peers: seq<RJob>, id: string)
    requires members != []
    ensures var g := GroupOf(rule, primary, members, c, peers, id);
            g.primary == primary && forall u :: u in g.correlated <==> u in members && u != primary
  {
    forall u ensures u in Filter(NotPrimary(primary), members) <==> u in members && u != primary {
      FilterMember(NotPrimary(primary), members, u);
    }
  }

  // ---- The loops ----

  method SelectPrimary(c: RJob, matched: seq<RJob>) returns (primary: RJob)
    ensures primary == Pick(Outranks, [c] + matched)
    ensures NamesIdentify(Elems([c] + matched)) ==> Elected(primary, Elems([c] + matched))
  {
    var all := [c] + matched;
    primary := all[0];
    assert all[..1] == [c];
    for i := 1 to |all|
      invariant primary == Pick(Outranks, all[..i])
    {
      PickStep(Outranks, all, i);
      var p := all[i];
      var pr := KindHierarchyRank(p.finding.kind);
      var cr := KindHierarchyRank(primary.finding.kind);
      if pr > cr {
        primary := p;
      } else if pr == cr && p.created < primary.created {
        primary := p;
      } else if pr == cr && p.created == primary.created && StrLess(p.name, primary.name) {
        primary := p;
      }
    }
    assert all[..|all|] == all;
    if NamesIdentify(Elems(all)) {
      PickIsElected(all);
    }
  }

  method EvaluateSameNamespaceParent(c: RJob, peers: seq<RJob>) returns (res: RuleResult)
    ensures res == SameNamespaceParent(c, peers)
    ensures res.Match? <==> Relatives(c, peers) != {}
    ensures res.Match? ==> AreMembers(res.members, c, Relatives(c, peers))
  {
    ParentRuleMatches(c, peers);
    var matched: seq<RJob> := [];
    for i := 0 to |peers|
      invariant matched == Filter(SharesParent(c), peers[..i])
    {
      FilterStep(SharesParent(c), peers, i);
      var p := peers[i];
      if p.uid == c.uid {
        continue;
      }
      if p.finding.namespace != c.finding.namespace {
        continue;
      }
      if c.finding.parent == "" || p.finding.parent == "" {
        continue;
      }
      if IsParentPrefix(c.finding.parent, p.finding.parent) || IsParentPrefix(p.finding.parent, c.finding.parent) {
        matched := matched + [p];
      }
    }
    assert peers[..|peers|] == peers;
    if matched == [] {
      return NoMatch;
    }
    var primary := SelectPrimary(c, matched);
    res := Match(primary.uid, [c.uid] + Map(UIDOf(), matched));
  }

  method EvaluatePodCandidate(c: RJob, peers: seq<RJob>, pods: Pods) returns (res: RuleResult)
    ensures res == PodCandidate(c, peers, pods)
  {
    var namespace := c.finding.namespace;
    var claims: seq<RJob> := [];
    for i := 0 to |peers|
      invariant claims == Filter(IsClaimIn(namespace), peers[..i])
    {
      FilterStep(IsClaimIn(namespace), peers, i);
      if peers[i].finding.kind == PVC && peers[i].finding.namespace == namespace {
        claims := claims + [peers[i]];
      }
    }
    assert peers[..|peers|] == peers;
    if claims == [] {
      return NoMatch;
    }
    var read := ReadPod(pods, namespace, c.finding.name);
    if read.NotFound? {
      return NoMatch;
    }
    if read.ReadError? {
      return RuleError;
    }
    var matched: seq<RJob> := [];
    for i := 0 to |claims|
      invariant matched == Filter(NamedIn(read.claims), claims[..i])
    {
      FilterStep(NamedIn(read.claims), claims, i);
      if claims[i].finding.name in read.claims {
        matched := matched + [claims[i]];
      }
    }
    assert claims[..|claims|] == claims;
    if matched == [] {
      return NoMatch;
    }
    var sorted := Sort(Older, matched);
    res := Match(sorted[0].uid, [c.uid] + Map(UIDOf(), sorted));
  }

  method EvaluatePVCCandidate(c: RJob, peers: seq<RJob>, pods: Pods) returns (res: RuleResult)
    ensures res == PVCCandidate(c, peers, pods)
  {
    var namespace := c.finding.namespace;
    var matched: seq<RJob> := [];
    for i := 0 to |peers|
      invariant matched == Filter(MountsClaim(pods, c), peers[..i])
      invariant Filter(ReadFails(pods, c), peers[..i]) == []
    {
      FilterStep(MountsClaim(pods, c), peers, i);
      FilterStep(ReadFails(pods, c), peers, i);
      var p := peers[i];
      if p.finding.kind != POD || p.finding.namespace != namespace {
        continue;
      }
      var read := ReadPod(pods, namespace, p.finding.name);
      if read.NotFound? {
        continue;
      }
      if read.ReadError? {
        FilterMember(ReadFails(pods, c), peers, p);
        return RuleError;
      }
      if c.finding.name in read.claims {
        matched := matched + [p];
      }
    }
    assert peers[..|peers|] == peers;
    if matched == [] {
      return NoMatch;
    }
    res := Match(c.uid, [c.uid] + Map(UIDOf(), matched));
  }

  /** Counts pod findings by node, then takes the first qualifying node in string order. */
  method EvaluateMultiPodSameNode(c: RJob, peers: seq<RJob>, threshold: int) returns (res: RuleResult)
    ensures res == MultiPodSameNode(c, peers, threshold)
  {
    if threshold <= 0 {
      return RuleError;
    }
    var all := [c] + peers;
    var nodeCount := CountByNode(all);
    var qualifying := CollectQualifying(all, nodeCount, threshold);
    QualifyingSame(all, threshold, qualifying);
    if qualifying == [] {
      return NoMatch;
    }
    LeastString(qualifying, QualifyingNodes(all, threshold));
    var node := Sort(StrLess, qualifying)[0];
    assert node in multiset(qualifying);
    var nodePods := CollectOnNode(all, node);
    assert Qualifies(all, threshold)(node) by {
      NodeListed(all, threshold, node);
    }
    var primary := SelectOldest(nodePods);
    res := Match(primary.uid, Map(UIDOf(), nodePods));
  }

  method CollectOnNode(all: seq<RJob>, node: string) returns (nodePods: seq<RJob>)
    ensures nodePods == Filter(OnNode(node), all)
  {
    nodePods := [];
    for i := 0 to |all|
      invariant nodePods == Filter(OnNode(node), all[..i])
    {
      FilterStep(OnNode(node), all, i);
      if all[i].finding.kind != POD {
        continue;
      }
      if all[i].node != node {
        continue;
      }
      nodePods := nodePods + [all[i]];
    }
    assert all[..|all|] == all;
  }

  method SelectOldest(nodePods: seq<RJob>) returns (primary: RJob)
    requires nodePods != []
    ensures primary == Pick(Older, nodePods)
    ensures NamesIdentify(Elems(nodePods)) ==> Eldest(primary, Elems(nodePods))
  {
    primary := nodePods[0];
    assert nodePods[..1] == [primary];
    for i := 1 to |nodePods|
      invariant primary == Pick(Older, nodePods[..i])
    {
      PickStep(Older, nodePods, i);
      var p := nodePods[i];
      if p.created < primary.created {
        primary := p;
        continue;
      }
      if primary.created == p.created && StrLess(p.name, primary.name) {
        primary := p;
      }
    }
    assert nodePods[..|nodePods|] == nodePods;
    if NamesIdentify(Elems(nodePods)) {
      PickIsElected(nodePods);
    }
  }

  /** A node's entry in the table is the number of its pod findings; other nodes have none. */
  ghost predicate CountsByNode(all: seq<RJob>, nodeCount: map<string, nat>) {
    forall n :: if n in nodeCount then n != "" && nodeCount[n] == |Filter(OnNode(n), all)| > 0
                else n == "" || Filter(OnNode(n), all) == []
  }

  method CountByNode(all: seq<RJob>) returns (nodeCount: map<string, nat>)
    ensures CountsByNode(all, nodeCount)
  {
    nodeCount := map[];
    for i := 0 to |all|
      invariant CountsByNode(all[..i], nodeCount)
    {
      var r := all[i];
      forall n ensures Filter(OnNode(n), all[..i + 1]) ==
                       Filter(OnNode(n), all[..i]) + if OnNode(n)(r) then [r] else []
      {
        FilterStep(OnNode(n), all, i);
      }
      if r.finding.kind != POD {
        continue;
      }
      if r.node == "" {
        continue;
      }
      nodeCount := nodeCount[r.node := (if r.node in nodeCount then nodeCount[r.node] else 0) + 1];
    }
    assert all[..|all|] == all;
  }

  /** Ranges over the table in no particular order. */
  method CollectQualifying(all: seq<RJob>, nodeCount: map<string, nat>, threshold: int) returns (nodes: seq<string>)
    requires CountsByNode(all, nodeCount)
    ensures forall n :: n in nodes <==> n in nodeCount && nodeCount[n] >= threshold
  {
    nodes := [];
    var left := nodeCount.Keys;
    while left != {}
      invariant left <= nodeCount.Keys
      invariant forall n :: n in nodes <==> n in nodeCount && n !in left && nodeCount[n] >= threshold
    {
      var n :| n in left;
      left := left - {n};
      if nodeCount[n] >= threshold {
        nodes := nodes + [n];
      }
    }
  }

  /** A node is named by a scheduled pod finding exactly when it has one. */
  lemma NodeNamed(all: seq<RJob>, n: string)
    ensures n in Map(NodeOf(), Filter(Scheduled(), all)) <==> n != "" && Filter(OnNode(n), all) != []
  {
    var pods, onNode := Filter(Scheduled(), all), Filter(OnNode(n), all);
    var names := Map(NodeOf(), pods);
    if n in names {
      var i :| 0 <= i < |names| && names[i] == n;
      FilterMember(Scheduled(), all, pods[i]);
      FilterMember(OnNode(n), all, pods[i]);
    }
    if n != "" && onNode != [] {
      FilterMember(OnNode(n), all, onNode[0]);
      FilterMember(Scheduled(), all, onNode[0]);
      var i :| 0 <= i < |pods| && pods[i] == onNode[0];
      assert names[i] == n;
    }
  }

  lemma NodeListed(all: seq<RJob>, threshold: int, n: string)
    requires threshold > 0
    ensures n in QualifyingNodes(all, threshold) <==> n != "" && |Filter(OnNode(n), all)| >= threshold
  {
    FilterMember(Qualifies(all, threshold), Map(NodeOf(), Filter(Scheduled(), all)), n);
    NodeNamed(all, n);
  }

  lemma QualifyingSame(all: seq<RJob>, threshold: int, nodes: seq<string>)
    requires threshold > 0
    requires forall n :: n in nodes <==> n != "" && |Filter(OnNode(n), all)| >= threshold
    ensures forall n :: n in nodes <==> n in QualifyingNodes(all, threshold)
    ensures nodes == [] <==> QualifyingNodes(all, threshold) == []
  {
    forall n ensures n in nodes <==> n in QualifyingNodes(all, threshold) {
      NodeListed(all, threshold, n);
    }
    var q := QualifyingNodes(all, threshold);
    assert nodes != [] ==> nodes[0] in q;
    assert q != [] ==> q[0] in nodes;
  }

  method ApplyRule(rule: Rule, c: RJob, peers: seq<RJob>, pods: Pods) returns (res: RuleResult)
    ensures res == Apply(rule, c, peers, pods)
  {
    match rule
    case PVCPodRule =>
      if c.finding.kind == POD {
        res := EvaluatePodCandidate(c, peers, pods);
      } else if c.finding.kind == PVC {
        res := EvaluatePVCCandidate(c, peers, pods);
      } else {
        res := NoMatch;
      }
    case SameNamespaceParentRule =>
      res := EvaluateSameNamespaceParent(c, peers);
    case MultiPodSameNodeRule(threshold) =>
      res := EvaluateMultiPodSameNode(c, peers, threshold);
  }

  /** The first rule that matches decides. */
  method Correlate(rules: seq<Rule>, c: RJob, peers: seq<RJob>, pods: Pods, id: string) returns (verdict: Verdict)
    ensures verdict == Evaluate(rules, c, peers, pods, id)
  {
    for i := 0 to |rules|
      invariant Evaluate(rules, c, peers, pods, id) == Evaluate(rules[i..], c, peers, pods, id)
    {
      assert rules[i..][1..] == rules[i + 1..];
      var result := ApplyRule(rules[i], c, peers, pods);
      if result.RuleError? {
        return EvalError;
      }
      if result.NoMatch? {
        continue;
      }
      var group := BuildGroup(rules[i], result.primary, result.members, c, peers, id);
      return Grouped(group);
    }
    return NoGroup;
  }

  method BuildGroup(rule: Rule, primary: UID, members: seq<UID>, c: RJob, peers: seq<RJob>, id: string) returns (group: Group)
    ensures group == GroupOf(rule, primary, members, c, peers, id)
  {
    if members != [] {
      var findings: seq<Finding> := [];
      if c.uid in members && c.uid != primary {
        findings := findings + [c.finding];
      }
      var matched := CollectMatched(members, primary, peers);
      var correlated := CollectCorrelated(members, primary);
      return Group(id, primary, correlated, rule, findings + Map(FindingOf(), matched));
    }
    var others: seq<RJob> := if c.uid != primary then [c] else [];
    var self := others;
    for i := 0 to |peers|
      invariant others == self + Filter(IsNot(primary), peers[..i])
    {
      FilterStep(IsNot(primary), peers, i);
      if peers[i].uid != primary {
        others := others + [peers[i]];
      }
    }
    assert peers[..|peers|] == peers;
    return Group(id, primary, Map(UIDOf(), others), rule, Map(FindingOf(), others));
  }

  method CollectMatched(members: seq<UID>, primary: UID, peers: seq<RJob>) returns (matched: seq<RJob>)
    ensures matched == Filter(InGroup(members, primary), peers)
  {
    var matchedSet := set u | u in members;
    matched := [];
    for i := 0 to |peers|
      invariant matched == Filter(InGroup(members, primary), peers[..i])
    {
      FilterStep(InGroup(members, primary), peers, i);
      if peers[i].uid in matchedSet && peers[i].uid != primary {
        matched := matched + [peers[i]];
      }
    }
    assert peers[..|peers|] == peers;
  }

  method CollectCorrelated(members: seq<UID>, primary: UID) returns (correlated: seq<UID>)
    ensures correlated == Filter(NotPrimary(primary), members)
  {
    correlated := [];
    for i := 0 to |members|
      invariant correlated == Filter(NotPrimary(primary), members[..i])
    {
      FilterStep(NotPrimary(primary), members, i);
      if members[i] != primary {
        correlated := correlated + [members[i]];
      }
    }
    assert members[..|members|] == members;
  }
}
