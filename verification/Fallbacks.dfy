/** Two branches of the controller that no reconcile takes: giving up on a primary that has gone, and
    adopting a Job that already exists. */
module Fallbacks {
  import opened Types
  import opened Seqs
  import opened Orders
  import opened Sorting
  import opened Rules
  import opened Deadlock
  import opened Stores
  import opened Controller
  import opened Lifecycle
  import opened Plans

  ghost predicate Among(uid: UID, c: RJob, peers: seq<RJob>) {
    uid == c.uid || exists p :: p in peers && p.uid == uid
  }

  lemma AmongFiltered(keep: RJob -> bool, x: RJob, c: RJob, peers: seq<RJob>)
    requires x in Filter(keep, peers) || x == c
    ensures Among(x.uid, c, peers)
  {
    FilterMember(keep, peers, x);
  }

  lemma ClaimAmong(c: RJob, peers: seq<RJob>, pods: Pods)
    requires PodCandidate(c, peers, pods).Match?
    ensures Among(PodCandidate(c, peers, pods).primary, c, peers)
  {
    var claims := Filter(IsClaimIn(c.finding.namespace), peers);
    var names := ReadPod(pods, c.finding.namespace, c.finding.name).claims;
    var matched := Filter(NamedIn(names), claims);
    var q := Sort(Older, matched)[0];
    assert q in multiset(matched);
    FilterMember(NamedIn(names), claims, q);
    AmongFiltered(IsClaimIn(c.finding.namespace), q, c, peers);
  }

  lemma ParentAmong(c: RJob, peers: seq<RJob>)
    requires SameNamespaceParent(c, peers).Match?
    ensures Among(SameNamespaceParent(c, peers).primary, c, peers)
  {
    AmongFiltered(SharesParent(c), Pick(Outranks, [c] + Filter(SharesParent(c), peers)), c, peers);
  }

  lemma NodeAmong(c: RJob, peers: seq<RJob>, threshold: int)
    requires MultiPodSameNode(c, peers, threshold).Match?
    ensures Among(MultiPodSameNode(c, peers, threshold).primary, c, peers)
  {
    var all := [c] + peers;
    var onNode := OnNode(Sort(StrLess, QualifyingNodes(all, threshold))[0]);
    FilterMember(onNode, all, Pick(Older, Filter(onNode, all)));
  }

  /** The primary a verdict names is the candidate or one of the peers it was given. */
  lemma PrimaryAmong(threshold: int, c: RJob, peers: seq<RJob>, pods: Pods, id: string)
    ensures var v := Evaluate(DefaultRules(threshold), c, peers, pods, id);
            v.Grouped? ==> Among(v.group.primary, c, peers)
  {
    EvaluateDecides(threshold, c, peers, pods, id);
    if PVCPod(c, peers, pods).Match? && c.finding.kind == POD {
      ClaimAmong(c, peers, pods);
    }
    if SameNamespaceParent(c, peers).Match? {
      ParentAmong(c, peers);
    }
    if MultiPodSameNode(c, peers, threshold).Match? {
      NodeAmong(c, peers, threshold);
    }
  }

  /** So the primary is never gone, and a non-primary is held however long it has waited. */
  lemma PrimaryNeverGone(cfg: Config, s: Store, c: RJob, now: Time, view: View)
    requires WellKeyed(s) && ValidView(s, view) && c.name in s.rjobs && s.rjobs[c.name] == c && cfg.correlation.Some?
    ensures var v := Evaluate(DefaultRules(cfg.correlation.value), c, Peers(s, c, view), view.pods, view.nextGroup);
            && (v.Grouped? ==> !PrimaryGone(s, v.group.primary, view))
            && (v.Grouped? && v.group.primary != c.uid ==> RouteOf(cfg, s, c, now, view) == Hold)
  {
    var peers := Peers(s, c, view);
    var v := Evaluate(DefaultRules(cfg.correlation.value), c, peers, view.pods, view.nextGroup);
    PrimaryAmong(cfg.correlation.value, c, peers, view.pods, view.nextGroup);
    if v.Grouped? {
      PeerNotGone(s, c, v.group.primary, view);
    }
  }

  lemma PeerNotGone(s: Store, c: RJob, uid: UID, view: View)
    requires WellKeyed(s) && ValidView(s, view) && c.name in s.rjobs && s.rjobs[c.name] == c && Among(uid, c, Peers(s, c, view))
    ensures !PrimaryGone(s, uid, view)
  {
    var p :| (p == c || p in Peers(s, c, view)) && p.uid == uid;
    FilteredListing(PeerOf(c), view.order, s);
    ListsRJob(view.order, s, p);
    FilterMember(HasUID(uid), Listing(view.order, s.rjobs), p);
  }

  /** No plan adopts a Job: a Job under the rjob's name is synced from before dispatch is reached. */
  lemma NeverAdopts(cfg: Config, s: Store, name: string, now: Time, view: View, k: nat)
    requires WellKeyed(s) && ValidView(s, view) && view.nextGroup != "" && k < |Plan(cfg, s, name, now, view)|
    ensures !Plan(cfg, s, name, now, view)[k].AdoptJob?
  {
    PlanEnabled(cfg, s, now, 0, name, view);
    EnabledNeverAdopts(cfg, s, now, 0, Plan(cfg, s, name, now, view), k);
  }

  lemma EnabledNeverAdopts(cfg: Config, s: Store, now: Time, uid: UID, ws: seq<Write>, k: nat)
    requires AllEnabled(cfg, s, now, uid, ws) && k < |ws|
    ensures !ws[k].AdoptJob?
  {
    EnabledAt(cfg, s, now, uid, ws, k);
  }
}
