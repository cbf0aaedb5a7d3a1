/** The RemediationJob controller: which writes one reconcile makes, as a function of the store,
    and the reconciler object that makes them. */
module Controller {
  import opened Types
  import opened Seqs
  import opened Rules
  import opened Stores

  /** What one reconcile reads besides the store: list orders, pods, the group identifier the
      random source would give next, and the injection detector's verdict. */
  datatype View = View(order: seq<string>, jobOrder: seq<string>, pods: Pods, nextGroup: string, injected: bool)

  ghost predicate ValidView(s: Store, view: View) {
    Enumerates(view.order, s.rjobs) && Enumerates(view.jobOrder, s.jobs)
  }

  function ShortTTL(cfg: Config): int {
    if cfg.shortTTL == 0 then 24 * HOUR else cfg.shortTTL
  }

  /** When a Succeeded rjob with a completion time expires. */
  function Deadline(cfg: Config, r: RJob): Time
    requires r.completedAt.Some?
  {
    if r.prMerged then (if r.prMergedAt.Some? then r.prMergedAt.value else r.completedAt.value) + cfg.ttl
    else r.completedAt.value + ShortTTL(cfg)
  }

  function PeerOf(c: RJob): RJob -> bool {
    (p: RJob) => p.uid != c.uid && p.phase == Pending
  }

  function Peers(s: Store, c: RJob, view: View): seq<RJob> {
    Filter(PeerOf(c), Listing(view.order, s.rjobs))
  }

  function OwnedBy(name: string): Job -> bool {
    (j: Job) => j.rjobLabel == name
  }

  function OwnedJobs(s: Store, name: string, view: View): seq<Job> {
    Filter(OwnedBy(name), Listing(view.jobOrder, s.jobs))
  }

  function ActiveAt(now: Time): Job -> bool {
    (j: Job) => IsJobActive(j, now)
  }

  predicate Limited(cfg: Config, s: Store, now: Time, view: View) {
    cfg.maxConcurrent != 0 && |Filter(ActiveAt(now), Listing(view.jobOrder, s.jobs))| >= cfg.maxConcurrent
  }

  function HasUID(uid: UID): RJob -> bool {
    (p: RJob) => p.uid == uid
  }

  predicate PrimaryGone(s: Store, primary: UID, view: View) {
    Filter(HasUID(primary), Listing(view.order, s.rjobs)) == []
  }

  /** Held for now, leading a group, resuming an interrupted group, or uncorrelated. */
  datatype Route = Hold | Lead(group: Group) | Recover | Solo

  function Unmatched(r: RJob): Route {
    if r.groupID != "" then Recover else Solo
  }

  function RouteOf(cfg: Config, s: Store, r: RJob, now: Time, view: View): Route {
    if cfg.correlation.None? then Solo
    else if cfg.window > 0 && now - r.created < cfg.window then Hold
    else
      match Evaluate(DefaultRules(cfg.correlation.value), r, Peers(s, r, view), view.pods, view.nextGroup)
      case EvalError => Hold
      case NoGroup => Unmatched(r)
      case Grouped(g) =>
        if g.primary == r.uid then Lead(g)
        else if PrimaryGone(s, g.primary, view) && now - r.created > 3 * cfg.window + cfg.window then Unmatched(r)
        else Hold
  }

  /** A primary keeps the group identifier an earlier, interrupted attempt gave it. */
  function GroupIDFor(r: RJob, nextGroup: string): string {
    if r.groupID != "" then r.groupID else if r.groupLabel != "" then r.groupLabel else nextGroup
  }

  function CorrelatedWith(uids: seq<UID>): RJob -> bool {
    (p: RJob) => p.uid in uids
  }

  function Members(s: Store, r: RJob, g: Group, view: View): seq<RJob> {
    Filter(CorrelatedWith(g.correlated), Peers(s, r, view))
  }

  function SuppressWrites(members: seq<RJob>, gid: string): seq<Write> {
    if members == [] then []
    else
      var last := members[|members| - 1];
      SuppressWrites(members[..|members| - 1], gid)
      + [SuppressStatus(last.name, gid), SuppressLabel(last.name, gid)]
  }

  function SuppressedUnder(r: RJob): RJob -> bool {
    (p: RJob) => p.uid != r.uid && p.groupID == r.groupID && p.phase == Suppressed
  }

  function Recovered(s: Store, r: RJob, view: View): seq<Finding> {
    Map(FindingOf(), Filter(SuppressedUnder(r), Listing(view.order, s.rjobs)))
  }

  function BuildJob(r: RJob, findings: seq<Finding>, now: Time): Job
    requires |r.fingerprint| >= 12
  {
    Job(JobName(r.fingerprint), r.name, r.fingerprint[..12], r.name, r.uid, now, 0, 0, 0, Some(1), r.finding, findings)
  }

  function DispatchWrites(cfg: Config, s: Store, r: RJob, findings: seq<Finding>, now: Time, injected: bool): seq<Write> {
    if injected && cfg.suppressInjection then [FailPermanently(r.name)]
    else if |r.fingerprint| < 12 then []
    else
      var job := BuildJob(r, findings, now);
      if job.name in s.jobs then [AdoptJob(r.name, s.jobs[job.name])]
      else [CreateJob(job), MarkDispatched(r.name, job.name, now)]
  }

  function FormWrites(s: Store, r: RJob, g: Group, gid: string, view: View): seq<Write> {
    SuppressWrites(Members(s, r, g, view), gid) + [SetGroup(r.name, gid), LabelPrimary(r.name, gid)]
  }

  function LeadWrites(cfg: Config, s: Store, r: RJob, g: Group, now: Time, view: View): seq<Write> {
    FormWrites(s, r, g, GroupIDFor(r, view.nextGroup), view)
    + DispatchWrites(cfg, s, r, g.findings, now, view.injected)
  }

  function RecoverWrites(cfg: Config, s: Store, r: RJob, now: Time, view: View): seq<Write> {
    (if r.groupLabel == "" then [LabelPrimary(r.name, r.groupID)] else [])
    + (if Limited(cfg, s, now, view) then []
       else DispatchWrites(cfg, s, r, Recovered(s, r, view), now, view.injected))
  }

  function SoloWrites(cfg: Config, s: Store, r: RJob, now: Time, view: View): seq<Write> {
    if Limited(cfg, s, now, view) then [] else DispatchWrites(cfg, s, r, [], now, view.injected)
  }

  function PendingWrites(cfg: Config, s: Store, r: RJob, now: Time, view: View): seq<Write> {
    match RouteOf(cfg, s, r, now, view)
    case Hold => []
    case Lead(g) => LeadWrites(cfg, s, r, g, now, view)
    case Recover => RecoverWrites(cfg, s, r, now, view)
    case Solo => SoloWrites(cfg, s, r, now, view)
  }

  /** Every write of one reconcile of `name`, in order. A reconcile that deletes an expired object
      goes on to patch it, which fails; that patch is not listed. */
  function Plan(cfg: Config, s: Store, name: string, now: Time, view: View): seq<Write> {
    if name !in s.rjobs then []
    else
      var r := s.rjobs[name];
      match r.phase
      case Blank => [InitPhase(name)]
      case Succeeded =>
        if r.completedAt.None? then [SetCompleted(name, now)]
        else if now < Deadline(cfg, r) then []
        else [Remove(name)]
      case Failed => []
      case PermanentlyFailed => []
      case Cancelled => []
      case Suppressed => []
      case _ =>
        var owned := OwnedJobs(s, name, view);
        if owned != [] then [SyncFrom(name, owned[0], now)]
        else if r.phase == Pending then PendingWrites(cfg, s, r, now, view)
        else []
  }

  /** The reconciler. Each method sends the writes of the function it names, as far as the API
      answers. */
  class RemediationJobReconciler {
    const cfg: Config
    const cluster: Cluster

    constructor (cfg: Config, cluster: Cluster)
      ensures this.cfg == cfg && this.cluster == cluster
    {
      this.cfg, this.cluster := cfg, cluster;
    }

    method PendingPeers(c: RJob, view: View) returns (peers: seq<RJob>)
      ensures peers == Peers(cluster.Contents(), c, view)
    {
      var items := Listing(view.order, cluster.rjobs);
      peers := [];
      for i := 0 to |items|
        invariant peers == Filter(PeerOf(c), items[..i])
      {
        FilterStep(PeerOf(c), items, i);
        if items[i].uid == c.uid {
          continue;
        }
        if items[i].phase != Pending {
          continue;
        }
        peers := peers + [items[i]];
      }
      assert items[..|items|] == items;
    }

    method ConcurrencyGate(now: Time, view: View) returns (limited: bool)
      ensures limited == Limited(cfg, cluster.Contents(), now, view)
    {
      if cfg.maxConcurrent == 0 {
        return false;
      }
      var items := Listing(view.jobOrder, cluster.jobs);
      var activeCount := 0;
      for i := 0 to |items|
        invariant activeCount == |Filter(ActiveAt(now), items[..i])|
      {
        FilterStep(ActiveAt(now), items, i);
        if IsJobActive(items[i], now) {
          activeCount := activeCount + 1;
        }
      }
      assert items[..|items|] == items;
      return activeCount >= cfg.maxConcurrent;
    }

    method SuppressCorrelatedPeers(peers: seq<RJob>, group: Group, gid: string) returns (ok: bool)
      requires forall p :: p in peers ==> p.phase == Pending
      modifies cluster
      ensures var ws := SuppressWrites(Filter(CorrelatedWith(group.correlated), peers), gid);
              Sent(old(cluster.Contents()), old(cluster.writesLeft), cluster.Contents(), cluster.writesLeft, ws)
              && (ok <==> old(cluster.writesLeft) >= |ws|)
    {
      ghost var s0, l0 := cluster.Contents(), cluster.writesLeft;
      var wanted := CorrelatedWith(group.correlated);
      ghost var done: seq<Write> := [];
      assert Prefix([], l0) == [];
      for i := 0 to |peers|
        invariant done == SuppressWrites(Filter(wanted, peers[..i]), gid)
        invariant Sent(s0, l0, cluster.Contents(), cluster.writesLeft, done) && l0 >= |done|
      {
        FilterStep(wanted, peers, i);
        ghost var before := Filter(wanted, peers[..i]);
        if peers[i].uid !in group.correlated {
          assert before + [] == before;
          continue;
        }
        SuppressAppend(before, peers[i], gid);
        ghost var s1, l1 := cluster.Contents(), cluster.writesLeft;
        ok := TransitionSuppressed(peers[i], gid);
        ghost var pair := [SuppressStatus(peers[i].name, gid), SuppressLabel(peers[i].name, gid)];
        SentThen(s0, l0, s1, l1, cluster.Contents(), cluster.writesLeft, done, pair);
        done := done + pair;
        if !ok {
          SuppressStopped(s0, l0, cluster.Contents(), cluster.writesLeft, wanted, peers, gid, i + 1);
          return;
        }
      }
      assert peers[..|peers|] == peers;
      return true;
    }

    /** Only a Pending rjob is suppressed; any other is left alone. */
    method TransitionSuppressed(r: RJob, gid: string) returns (ok: bool)
      modifies cluster
      ensures var ws := if r.phase == Pending then [SuppressStatus(r.name, gid), SuppressLabel(r.name, gid)] else [];
              Sent(old(cluster.Contents()), old(cluster.writesLeft), cluster.Contents(), cluster.writesLeft, ws)
              && (ok <==> old(cluster.writesLeft) >= |ws|)
    {
      ghost var s0, l0 := cluster.Contents(), cluster.writesLeft;
      if r.phase == Suppressed {
        return true;
      }
      if r.phase != Pending {
        return true;
      }
      ghost var a, b := [SuppressStatus(r.name, gid)], [SuppressLabel(r.name, gid)];
      assert a + b == [SuppressStatus(r.name, gid), SuppressLabel(r.name, gid)];
      ok := cluster.Send(SuppressStatus(r.name, gid));
      if !ok {
        SentShort(s0, l0, cluster.Contents(), cluster.writesLeft, a, b);
        return;
      }
      ghost var s1, l1 := cluster.Contents(), cluster.writesLeft;
      ok := cluster.Send(SuppressLabel(r.name, gid));
      SentThen(s0, l0, s1, l1, cluster.Contents(), cluster.writesLeft, a, b);
    }

    method Dispatch(r: RJob, findings: seq<Finding>, now: Time, injected: bool)
      modifies cluster
      ensures Sent(old(cluster.Contents()), old(cluster.writesLeft), cluster.Contents(), cluster.writesLeft,
                   DispatchWrites(cfg, old(cluster.Contents()), r, findings, now, injected))
    {
      ghost var s0, l0 := cluster.Contents(), cluster.writesLeft;
      if injected {
        if cfg.suppressInjection {
          var _ := cluster.Send(FailPermanently(r.name));
          return;
        }
      }
      if |r.fingerprint| < 12 {
        return;
      }
      var job := BuildJob(r, findings, now);
      if job.name in cluster.jobs {
        var existing := cluster.jobs[job.name];
        var _ := cluster.Send(AdoptJob(r.name, existing));
        return;
      }
      ghost var a, b := [CreateJob(job)], [MarkDispatched(r.name, job.name, now)];
      assert a + b == [CreateJob(job), MarkDispatched(r.name, job.name, now)];
      var ok := cluster.Send(CreateJob(job));
      if !ok {
        SentShort(s0, l0, cluster.Contents(), cluster.writesLeft, a, b);
        return;
      }
      ghost var s1, l1 := cluster.Contents(), cluster.writesLeft;
      ok := cluster.Send(MarkDispatched(r.name, job.name, now));
      SentThen(s0, l0, s1, l1, cluster.Contents(), cluster.writesLeft, a, b);
    }

    /** Suppresses the peers, then records the group on the primary: status first, labels after. */
    method FormGroup(r: RJob, peers: seq<RJob>, g: Group, gid: string, view: View) returns (ok: bool)
      requires peers == Peers(cluster.Contents(), r, view)
      modifies cluster
      ensures var ws := FormWrites(old(cluster.Contents()), r, g, gid, view);
              Sent(old(cluster.Contents()), old(cluster.writesLeft), cluster.Contents(), cluster.writesLeft, ws)
              && (ok <==> old(cluster.writesLeft) >= |ws|)
    {
      ghost var s0, l0 := cluster.Contents(), cluster.writesLeft;
      ghost var a := SuppressWrites(Members(s0, r, g, view), gid);
      ghost var b, c := [SetGroup(r.name, gid)], [LabelPrimary(r.name, gid)];
      assert FormWrites(s0, r, g, gid, view) == a + (b + c) == a + b + c;
      forall p | p in peers ensures p.phase == Pending {
        FilterMember(PeerOf(r), Listing(view.order, s0.rjobs), p);
      }
      ok := SuppressCorrelatedPeers(peers, g, gid);
      ghost var s1, l1 := cluster.Contents(), cluster.writesLeft;
      if !ok {
        SentShort(s0, l0, s1, l1, a, b + c);
        return;
      }
      ok := cluster.Send(SetGroup(r.name, gid));
      ghost var s2, l2 := cluster.Contents(), cluster.writesLeft;
      SentThen(s0, l0, s1, l1, s2, l2, a, b);
      if !ok {
        SentShort(s0, l0, s2, l2, a + b, c);
        return;
      }
      ok := cluster.Send(LabelPrimary(r.name, gid));
      SentThen(s0, l0, s2, l2, cluster.Contents(), cluster.writesLeft, a + b, c);
    }

    /** The primary of a group suppresses its peers, records the group, and dispatches for all. */
    method LeadGroup(r: RJob, peers: seq<RJob>, g: Group, now: Time, view: View)
      requires peers == Peers(cluster.Contents(), r, view)
      modifies cluster
      ensures Sent(old(cluster.Contents()), old(cluster.writesLeft), cluster.Contents(), cluster.writesLeft,
                   LeadWrites(cfg, old(cluster.Contents()), r, g, now, view))
    {
      ghost var s0, l0 := cluster.Contents(), cluster.writesLeft;
      var gid := if r.groupID != "" then r.groupID else if r.groupLabel != "" then r.groupLabel else view.nextGroup;
      ghost var a := FormWrites(s0, r, g, gid, view);
      ghost var d := DispatchWrites(cfg, s0, r, g.findings, now, view.injected);
      var ok := FormGroup(r, peers, g, gid, view);
      ghost var s1, l1 := cluster.Contents(), cluster.writesLeft;
      if !ok {
        SentShort(s0, l0, s1, l1, a, d);
        return;
      }
      assert s1.jobs == s0.jobs by {
        FormPatches(s0, r, g, gid, view);
        assert Prefix(a, l0) == a;
      }
      Dispatch(r, g.findings, now, view.injected);
      SentThen(s0, l0, s1, l1, cluster.Contents(), cluster.writesLeft, a, d);
    }

    /** Collects the findings suppressed under an interrupted group and dispatches for them. */
    method RecoverGroup(r: RJob, now: Time, view: View)
      modifies cluster
      ensures Sent(old(cluster.Contents()), old(cluster.writesLeft), cluster.Contents(), cluster.writesLeft,
                   RecoverWrites(cfg, old(cluster.Contents()), r, now, view))
    {
      ghost var s0, l0 := cluster.Contents(), cluster.writesLeft;
      var members := ListSuppressed(r, view);
      var findings := Map(FindingOf(), members);
      ghost var b := if Limited(cfg, s0, now, view) then []
                     else DispatchWrites(cfg, s0, r, findings, now, view.injected);
      ghost var a: seq<Write> := [];
      if r.groupLabel == "" {
        a := [LabelPrimary(r.name, r.groupID)];
        var ok := cluster.Send(LabelPrimary(r.name, r.groupID));
        if !ok {
          SentShort(s0, l0, cluster.Contents(), cluster.writesLeft, a, b);
          return;
        }
      }
      ghost var s1, l1 := cluster.Contents(), cluster.writesLeft;
      assert s1.jobs == s0.jobs by {
        KeepsJobs(s0, a);
      }
      var limited := ConcurrencyGate(now, view);
      if !limited {
        Dispatch(r, findings, now, view.injected);
      }
      SentThen(s0, l0, s1, l1, cluster.Contents(), cluster.writesLeft, a, b);
    }

    method ListSuppressed(r: RJob, view: View) returns (members: seq<RJob>)
      ensures members == Filter(SuppressedUnder(r), Listing(view.order, cluster.rjobs))
    {
      var items := Listing(view.order, cluster.rjobs);
      members := [];
      for i := 0 to |items|
        invariant members == Filter(SuppressedUnder(r), items[..i])
      {
        FilterStep(SuppressedUnder(r), items, i);
        if items[i].uid == r.uid {
          continue;
        }
        if items[i].groupID == r.groupID && items[i].phase == Suppressed {
          members := members + [items[i]];
        }
      }
      assert items[..|items|] == items;
    }

    method Reconcile(name: string, now: Time, view: View)
      modifies cluster
      ensures Sent(old(cluster.Contents()), old(cluster.writesLeft), cluster.Contents(), cluster.writesLeft,
                   Plan(cfg, old(cluster.Contents()), name, now, view))
    {
      ghost var s0 := cluster.Contents();
      assert CommitAll(s0, []) == s0;
      if name !in cluster.rjobs {
        return;
      }
      var r := cluster.rjobs[name];
      if r.phase == Blank {
        var _ := cluster.Send(InitPhase(name));
        return;
      }
      if r.phase == Succeeded {
        if r.completedAt.None? {
          var _ := cluster.Send(SetCompleted(name, now));
          return;
        }
        var deadline;
        if r.prMerged {
          var clockStart := r.completedAt.value;
          if r.prMergedAt.Some? {
            clockStart := r.prMergedAt.value;
          }
          deadline := clockStart + cfg.ttl;
        } else {
          deadline := r.completedAt.value + ShortTTL(cfg);
        }
        if now < deadline {
          return;
        }
        var _ := cluster.Send(Remove(name));
        return;
      }
      if r.phase == Failed || r.phase == PermanentlyFailed || r.phase == Cancelled || r.phase == Suppressed {
        return;
      }
      var owned := ListOwned(name, view);
      if |owned| > 0 {
        var _ := cluster.Send(SyncFrom(name, owned[0], now));
        return;
      }
      if r.phase == Dispatched || r.phase == Running {
        return;
      }
      ReconcilePending(r, now, view);
    }

    method ListOwned(name: string, view: View) returns (owned: seq<Job>)
      ensures owned == OwnedJobs(cluster.Contents(), name, view)
    {
      var items := Listing(view.jobOrder, cluster.jobs);
      owned := [];
      for i := 0 to |items|
        invariant owned == Filter(OwnedBy(name), items[..i])
      {
        FilterStep(OwnedBy(name), items, i);
        if items[i].rjobLabel == name {
          owned := owned + [items[i]];
        }
      }
      assert items[..|items|] == items;
    }

    method ReconcilePending(r: RJob, now: Time, view: View)
      modifies cluster
      ensures Sent(old(cluster.Contents()), old(cluster.writesLeft), cluster.Contents(), cluster.writesLeft,
                   PendingWrites(cfg, old(cluster.Contents()), r, now, view))
    {
      assert CommitAll(cluster.Contents(), []) == cluster.Contents();
      var peers := PendingPeers(r, view);
      var route := ChooseRoute(r, peers, now, view);
      match route {
        case Hold =>
        case Lead(g) =>
          LeadGroup(r, peers, g, now, view);
        case Recover =>
          RecoverGroup(r, now, view);
        case Solo =>
          var limited := ConcurrencyGate(now, view);
          if !limited {
            Dispatch(r, [], now, view.injected);
          }
      }
    }

    /** The window hold, then the correlator, then whether the primary can still be waited for. */
    method ChooseRoute(r: RJob, peers: seq<RJob>, now: Time, view: View) returns (route: Route)
      requires peers == Peers(cluster.Contents(), r, view)
      ensures route == RouteOf(cfg, cluster.Contents(), r, now, view)
    {
      if cfg.correlation.None? {
        return Solo;
      }
      if cfg.window > 0 {
        var age := now - r.created;
        if age < cfg.window {
          return Hold;
        }
      }
      var verdict := Correlate(DefaultRules(cfg.correlation.value), r, peers, view.pods, view.nextGroup);
      if verdict.EvalError? {
        return Hold;
      }
      if verdict.Grouped? {
        if verdict.group.primary == r.uid {
          return Lead(verdict.group);
        }
        var gone := IsPrimaryGone(verdict.group.primary, view);
        var gracePeriod := 3 * cfg.window;
        var waitedLongEnough := now - r.created > gracePeriod + cfg.window;
        if !(gone && waitedLongEnough) {
          return Hold;
        }
      }
      return if r.groupID != "" then Recover else Solo;
    }

    method IsPrimaryGone(primary: UID, view: View) returns (gone: bool)
      ensures gone == PrimaryGone(cluster.Contents(), primary, view)
    {
      var items := Listing(view.order, cluster.rjobs);
      for i := 0 to |items|
        invariant Filter(HasUID(primary), items[..i]) == []
      {
        FilterStep(HasUID(primary), items, i);
        if items[i].uid == primary {
          FilterMember(HasUID(primary), items, items[i]);
          return false;
        }
      }
      assert items[..|items|] == items;
      return true;
    }
  }

  // ---- Facts about the writes ----

  lemma {:induction false} SuppressPrefix(wanted: RJob -> bool, peers: seq<RJob>, gid: string, i: nat)
    requires i <= |peers|
    ensures SuppressWrites(Filter(wanted, peers[..i]), gid) <= SuppressWrites(Filter(wanted, peers), gid)
    decreases |peers| - i
  {
    if i < |peers| {
      SuppressPrefix(wanted, peers, gid, i + 1);
      FilterStep(wanted, peers, i);
      SuppressAppend(Filter(wanted, peers[..i]), peers[i], gid);
      assert Filter(wanted, peers[..i]) + [] == Filter(wanted, peers[..i]);
    } else {
      assert peers[..i] == peers;
    }
  }

  /** A suppression loop that stops early has sent a prefix of everything it meant to send. */
  lemma SuppressStopped(s0: Store, l0: nat, s: Store, l: nat, wanted: RJob -> bool, peers: seq<RJob>, gid: string, i: nat)
    requires i <= |peers|
    requires var part := SuppressWrites(Filter(wanted, peers[..i]), gid); Sent(s0, l0, s, l, part) && l0 < |part|
    ensures var all := SuppressWrites(Filter(wanted, peers), gid); Sent(s0, l0, s, l, all) && l0 < |all|
  {
    var part, all := SuppressWrites(Filter(wanted, peers[..i]), gid), SuppressWrites(Filter(wanted, peers), gid);
    SuppressPrefix(wanted, peers, gid, i);
    SentShort(s0, l0, s, l, part, all[|part|..]);
    assert all == part + all[|part|..];
  }

  lemma SuppressAppend(members: seq<RJob>, r: RJob, gid: string)
    ensures SuppressWrites(members + [r], gid) ==
            SuppressWrites(members, gid) + [SuppressStatus(r.name, gid), SuppressLabel(r.name, gid)]
  {
    assert (members + [r])[..|members|] == members;
  }

  lemma {:induction false} SuppressPatches(members: seq<RJob>, gid: string)
    ensures forall w :: w in SuppressWrites(members, gid) ==> IsPatch(w)
  {
    if members != [] {
      SuppressPatches(members[..|members| - 1], gid);
    }
  }

  lemma FormPatches(s: Store, r: RJob, g: Group, gid: string, view: View)
    ensures var after := CommitAll(s, FormWrites(s, r, g, gid, view));
            after.jobs == s.jobs && after.dispatched == s.dispatched && after.rjobs.Keys == s.rjobs.Keys
  {
    SuppressPatches(Members(s, r, g, view), gid);
    KeepsJobs(s, FormWrites(s, r, g, gid, view));
  }

  /** Patches leave the Jobs alone. */
  lemma {:induction false} KeepsJobs(s: Store, ws: seq<Write>)
    requires forall w :: w in ws ==> IsPatch(w)
    ensures CommitAll(s, ws).jobs == s.jobs && CommitAll(s, ws).dispatched == s.dispatched
    ensures CommitAll(s, ws).rjobs.Keys == s.rjobs.Keys
  {
    if ws != [] {
      KeepsJobs(s, ws[..|ws| - 1]);
      assert ws[|ws| - 1] in ws;
    }
  }
}
