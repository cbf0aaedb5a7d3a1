/** States reached from an empty cluster in which a promise is broken. */
module Scenes {
  import opened Types
  import opened Seqs
  import opened Orders
  import opened Rules
  import opened Deadlock
  import opened Stores
  import opened Controller
  import opened BoundedMaps
  import opened Provider
  import opened Lifecycle
  import opened Evolution
  import opened Plans
  import opened Runs
  import opened Admissions
  import opened Capacity
  import opened Conservation
  import opened Groups
  import opened Recovery
  import opened Orphans
  import opened Stops
  import opened Retries
  import opened Leftovers
  import opened Staging

  // ---- A finding arrives ----

  /** Nothing delays or limits a finding, and a group needs at least three pods of one node. */
  predicate Plain(cfg: Config) {
    cfg.correlation == Some(3) && cfg.window == 0 && cfg.stabilisation == 0 && !cfg.suppressInjection
  }

  /** A report of an object not scheduled on any node. */
  ghost function LookAt(s: State, f: Finding, fp: string): Look {
    Look(Ref(f.name, f.namespace), Report(f, "", fp, false), Enumerated(s.store.rjobs.Keys), false, true, false, "", s.nextUID)
  }

  function Newborn(cfg: Config, s: State, f: Finding, fp: string): RJob
    requires |fp| >= 12
  {
    NewRJob(cfg, f, "", fp, Ref(f.name, f.namespace), s.nextUID, s.now)
  }

  /** The finding can be taken up: the name is free or Failed, and no other rjob has its parent. */
  ghost predicate Welcome(s: State, f: Finding, fp: string) {
    && |fp| >= 12 && f.chainDepth == 0
    && (RJobName(fp) in s.store.rjobs ==> s.store.rjobs[RJobName(fp)].fingerprint == fp && s.store.rjobs[RJobName(fp)].phase == Failed)
    && forall n :: n in s.store.rjobs && n != RJobName(fp) ==> s.store.rjobs[n].finding.parent != f.parent
  }

  /** `t` is `s` with `r` added or replaced. */
  ghost predicate With(s: State, t: State, r: RJob) {
    t.store == s.store.(rjobs := s.store.rjobs[r.name := r]) && t.now == s.now
  }

  lemma ProvideNext(cfg: Config, env: Env, s: State, f: Finding, fp: string) returns (t: State)
    requires Plain(cfg) && Reachable(cfg, env, s) && Welcome(s, f, fp)
    ensures Reachable(cfg, env, t) && With(s, t, Newborn(cfg, s, f, fp))
  {
    ReachInv(cfg, env, s);
    var look, p := LookAt(s, f, fp), HighestIn(s.memory.Keys) + 1;
    var ws := React(cfg, s.store, MemoryOf(cfg, s, p), s.lastAllowed, look, s.now).writes;
    var step := Provide(p, look, None, |ws|);
    assert Perceived(s, look, None) == look;
    assert Legal(cfg, env, s, step) by {
      assert |Cleaned(MemoryOf(cfg, s, p), s.now).data| == 0;
    }
    assert Prefix(ws, |ws|) == ws;
    t := Next(cfg, s, step);
    ReachNext(cfg, env, s, step);
    ProvideEffect(cfg, s, p, f, fp);
  }

  lemma ProvideEffect(cfg: Config, s: State, p: nat, f: Finding, fp: string)
    requires Plain(cfg) && WellKeyed(s.store) && Unused(s.store, s.nextUID) && Welcome(s, f, fp)
    ensures var r := Newborn(cfg, s, f, fp);
            CommitAll(s.store, React(cfg, s.store, MemoryOf(cfg, s, p), s.lastAllowed, LookAt(s, f, fp), s.now).writes)
            == s.store.(rjobs := s.store.rjobs[r.name := r])
  {
    var look := LookAt(s, f, fp);
    GatesDecide(cfg, s.store, MemoryOf(cfg, s, p), s.lastAllowed, look, s.now);
    assert Unopposed(s.store, f, fp);
    ReportEffect(cfg, s.store, look, s.now);
    PutAt(s.store, CommitAll(s.store, ReportWrites(cfg, s.store, look, s.now)), RJobName(fp));
  }

  lemma PutAt(s: Store, t: Store, n: string)
    requires OnlyAt(s, t, n) && n in t.rjobs
    ensures t == s.(rjobs := s.rjobs[n := t.rjobs[n]])
  {
    forall m | m != n ensures (m in t.rjobs <==> m in s.rjobs) && (m in t.rjobs ==> t.rjobs[m] == s.rjobs[m]) {
      assert m in t.rjobs - {n} <==> m in s.rjobs - {n};
      assert m in t.rjobs ==> (t.rjobs - {n})[m] == (s.rjobs - {n})[m];
    }
    assert t.rjobs == s.rjobs[n := t.rjobs[n]];
  }

  /** A finding arrives and becomes a Pending rjob. */
  lemma Arrive(cfg: Config, env: Env, s: State, f: Finding, fp: string) returns (t: State)
    requires Plain(cfg) && Reachable(cfg, env, s) && Welcome(s, f, fp)
    ensures Reachable(cfg, env, t) && With(s, t, Newborn(cfg, s, f, fp).(phase := Pending))
  {
    var mid := ProvideNext(cfg, env, s, f, fp);
    var r := Newborn(cfg, s, f, fp);
    t := ReachFully(cfg, env, mid, r.name);
    BecomesPending(cfg, mid.store, r.name, mid.now, ViewNow(mid));
    WithTwice(s, mid, t, r, r.(phase := Pending));
  }

  lemma WithTwice(s: State, mid: State, t: State, r: RJob, r': RJob)
    requires With(s, mid, r) && With(mid, t, r') && r.name == r'.name
    ensures With(s, t, r')
  {
    assert s.store.rjobs[r.name := r][r.name := r'] == s.store.rjobs[r.name := r'];
  }

  lemma BecomesPending(cfg: Config, s: Store, n: string, now: Time, view: View)
    requires n in s.rjobs && s.rjobs[n].phase == Blank
    ensures CommitAll(s, Plan(cfg, s, n, now, view)) == s.(rjobs := s.rjobs[n := s.rjobs[n].(phase := Pending)])
  {
    CommitOne(s, InitPhase(n));
  }

  // ---- The cast ----

  /** A Deployment and two pods of other Deployments in one namespace, whose parents extend the first
      one's; each has a fingerprint and name of its own. */
  datatype Cast = Cast(a: Finding, fa: string, b: Finding, fb: string, c: Finding, fc: string)

  ghost predicate Proper(x: Cast) {
    && |x.fa| >= 12 && |x.fb| >= 12 && |x.fc| >= 12
    && RJobName(x.fa) != RJobName(x.fb) && RJobName(x.fa) != RJobName(x.fc) && RJobName(x.fb) != RJobName(x.fc)
    && x.a.kind == "Deployment" && x.b.kind == POD && x.c.kind == POD
    && x.a.chainDepth == x.b.chainDepth == x.c.chainDepth == 0
    && ParentsRelated(x.a, x.b) && ParentsRelated(x.a, x.c)
    && x.a.parent != x.b.parent && x.a.parent != x.c.parent && x.b.parent != x.c.parent
  }

  lemma SomeCast() returns (x: Cast)
    ensures Proper(x)
  {
    var a := Finding("Deployment", "web", "prod", "Deployment/web", "", "", 0);
    var b := a.(kind := POD, name := "web-api-0", parent := "Deployment/web" + "-api");
    var c := a.(kind := POD, name := "web-ui-0", parent := "Deployment/web" + "-ui");
    x := Cast(a, "aaaaaaaaaaaa", b, "bbbbbbbbbbbb", c, "cccccccccccc");
    assert a.parent + "-" <= b.parent && a.parent + "-" <= c.parent;
    assert RJobName(x.fa)[9] == 'a' && RJobName(x.fb)[9] == 'b' && RJobName(x.fc)[9] == 'c';
    assert b.parent[15] == 'a' && c.parent[15] == 'u' && |a.parent| == 14;
  }

  // ---- Who leads ----

  /** `a`, a Pending Deployment without a Job, has `b`, a related pod, as its only Pending peer. */
  ghost predicate Pair(s: Store, a: RJob, b: RJob) {
    && a.name in s.rjobs && s.rjobs[a.name] == a && b.name in s.rjobs && s.rjobs[b.name] == b
    && a.uid != b.uid && a.phase == Pending && b.phase == Pending
    && (forall n :: n in s.rjobs && s.rjobs[n].phase == Pending ==> n == a.name || n == b.name)
    && |a.fingerprint| >= 12 && JobName(a.fingerprint) !in s.jobs
    && a.finding.kind == "Deployment" && b.finding.kind == POD && ParentsRelated(a.finding, b.finding)
  }

  lemma OnlyPeer(s: Store, r: RJob, p: RJob, view: View)
    requires WellKeyed(s) && ValidView(s, view)
    requires p.name in s.rjobs && s.rjobs[p.name] == p && p.phase == Pending && p.uid != r.uid
    requires forall n :: n in s.rjobs && s.rjobs[n].phase == Pending && s.rjobs[n].uid != r.uid ==> n == p.name
    ensures Peers(s, r, view) == [p]
  {
    var peers := Peers(s, r, view);
    FilteredListing(PeerOf(r), view.order, s);
    forall x ensures multiset(peers)[x] == if x == p then 1 else 0 {
      assert x in peers <==> x in multiset(peers);
      assert multiset(peers)[x] <= 1;
    }
    assert multiset(peers) == multiset{p};
    OnlyOne(peers, p);
  }

  lemma FilterOne<T>(keep: T -> bool, x: T)
    ensures Filter(keep, [x]) == if keep(x) then [x] else []
  {
    assert [x][..0] == [] && Filter(keep, []) == [];
  }

  lemma DeploymentOutranksPod(c: RJob, p: RJob)
    requires c.finding.kind == "Deployment" && p.finding.kind == POD
    ensures Pick(Outranks, [c] + [p]) == c
  {
    assert "Deployment"[0] == 'D' && POD[0] == 'P' && |POD| == 3;
    assert !Outranks(p, c);
    assert ([c] + [p])[..1] == [c];
    assert Pick(Outranks, [c]) == c;
  }

  /** The rule for parents makes a Deployment lead a related pod. */
  lemma ParentRuleLeads(c: RJob, p: RJob, pods: Pods, threshold: int)
    requires c.finding.kind == "Deployment" && p.finding.kind == POD && SharesParent(c)(p)
    ensures Decide(threshold, c, [p], pods) == Match(c.uid, [c.uid] + Map(UIDOf(), [p]))
  {
    FilterOne(SharesParent(c), p);
    DeploymentOutranksPod(c, p);
    assert c.finding.kind[0] == 'D' && POD[0] == 'P' && PVC[0] == 'P';
  }

  lemma DecisionGroups(threshold: int, c: RJob, p: RJob, pods: Pods, id: string)
    requires Decide(threshold, c, [p], pods) == Match(c.uid, [c.uid] + Map(UIDOf(), [p])) && c.uid != p.uid
    ensures var v := Evaluate(DefaultRules(threshold), c, [p], pods, id);
            v.Grouped? && v.group.primary == c.uid && p.uid in v.group.correlated
  {
    var members := [c.uid] + Map(UIDOf(), [p]);
    assert members[1] == p.uid;
    FilterMember(NotPrimary(c.uid), members, p.uid);
    EvaluateDecides(threshold, c, [p], pods, id);
  }

  lemma PairLeads(cfg: Config, s: Store, a: RJob, b: RJob, now: Time, view: View)
    requires Plain(cfg) && WellKeyed(s) && ValidView(s, view) && Pair(s, a, b)
    ensures var route := RouteOf(cfg, s, a, now, view); route.Lead? && Members(s, a, route.group, view) == [b]
  {
    OnlyPeer(s, a, b, view);
    assert SharesParent(a)(b);
    ParentRuleLeads(a, b, view.pods, 3);
    DecisionGroups(3, a, b, view.pods, view.nextGroup);
    var v := Evaluate(DefaultRules(3), a, Peers(s, a, view), view.pods, view.nextGroup);
    VerdictLeads(cfg, s, a, now, view, v);
    MembersAre(s, a, v.group, view, b);
  }

  lemma VerdictLeads(cfg: Config, s: Store, r: RJob, now: Time, view: View, v: Verdict)
    requires Plain(cfg) && v == Evaluate(DefaultRules(3), r, Peers(s, r, view), view.pods, view.nextGroup)
    requires v.Grouped? && v.group.primary == r.uid
    ensures RouteOf(cfg, s, r, now, view) == Lead(v.group)
  {
  }

  lemma MembersAre(s: Store, r: RJob, g: Group, view: View, p: RJob)
    requires Peers(s, r, view) == [p] && p.uid in g.correlated
    ensures Members(s, r, g, view) == [p]
  {
    FilterOne(CorrelatedWith(g.correlated), p);
  }

  // ---- Alone ----

  /** A pod on no node, with no peers, is uncorrelated. */
  lemma AloneIsFree(c: RJob, pods: Pods, id: string)
    requires c.finding.kind == POD && c.node == ""
    ensures Evaluate(DefaultRules(3), c, [], pods, id).NoGroup?
  {
    assert Filter(IsClaimIn(c.finding.namespace), []) == [] && Filter(SharesParent(c), []) == [];
    assert [c] + [] == [c];
    FilterOne(Scheduled(), c);
    assert QualifyingNodes([c], 3) == [];
    EvaluateDecides(3, c, [], pods, id);
  }

  lemma NoPeer(s: Store, r: RJob, view: View)
    requires WellKeyed(s) && ValidView(s, view)
    requires forall n :: n in s.rjobs && s.rjobs[n].phase == Pending ==> s.rjobs[n].uid == r.uid
    ensures Peers(s, r, view) == []
  {
    FilteredListing(PeerOf(r), view.order, s);
    HeadIn(Peers(s, r, view));
  }

  lemma HeadIn<T>(xs: seq<T>)
    ensures xs != [] ==> xs[0] in xs
  {
  }

  /** Alone in the cluster, it goes on its own. */
  lemma SoloPlan(cfg: Config, s: Store, c: RJob, now: Time, view: View)
    requires Plain(cfg) && cfg.maxConcurrent >= 0 && WellKeyed(s) && ValidView(s, view) && !view.injected
    requires s == Store(map[c.name := c], map[], []) && c.phase == Pending && c.groupID == "" && c.finding.kind == POD && c.node == ""
    ensures Plan(cfg, s, c.name, now, view) == DispatchWrites(cfg, s, c, [], now, false)
  {
    NoPeer(s, c, view);
    AloneIsFree(c, view.pods, view.nextGroup);
    GateCounts(cfg, s, now, view);
    assert ActiveNames(s.jobs, now) == {};
    OwnedIsJob(s, c.name, view);
  }

  /** One rjob, dispatched, and its Job. */
  ghost predicate Busy(s: State, c: RJob)
    requires |c.fingerprint| >= 12
  {
    var job := BuildJob(c, [], s.now);
    s.store == Store(map[c.name := c.(phase := Dispatched, jobRef := job.name, dispatchedAt := Some(s.now))], map[job.name := job], [job])
  }

  lemma SoloEffect(cfg: Config, s: Store, c: RJob, now: Time)
    requires Plain(cfg) && s == Store(map[c.name := c], map[], []) && c.phase == Pending && |c.fingerprint| >= 12
    ensures var job := BuildJob(c, [], now);
            CommitAll(s, DispatchWrites(cfg, s, c, [], now, false)) ==
            Store(map[c.name := c.(phase := Dispatched, jobRef := job.name, dispatchedAt := Some(now))], map[job.name := job], [job])
  {
    DispatchEnabled(cfg, s, s, now, 0, c, [], false);
    var job := BuildJob(c, [], now);
    assert map[c.name := c][c.name := c.(phase := Dispatched, jobRef := job.name, dispatchedAt := Some(now))]
        == map[c.name := c.(phase := Dispatched, jobRef := job.name, dispatchedAt := Some(now))];
    assert [] + [job] == [job];
  }

  lemma UntilBusy(cfg: Config, env: Env, f: Finding, fp: string) returns (c: RJob, t: State)
    requires Plain(cfg) && cfg.maxConcurrent >= 0 && |fp| >= 12 && f.chainDepth == 0 && f.kind == POD
    ensures Reachable(cfg, env, t) && |c.fingerprint| >= 12 && Busy(t, c)
    ensures c.name == RJobName(fp) && c.fingerprint == fp && c.finding == f && c.maxRetries == cfg.maxRetries && c.retryCount == 0
  {
    var s0 := ReachStart(cfg, env);
    var s := Arrive(cfg, env, s0, f, fp);
    c := Newborn(cfg, s0, f, fp).(phase := Pending);
    assert s.store == Store(map[c.name := c], map[], []);
    ReachInv(cfg, env, s);
    t := ReachFully(cfg, env, s, c.name);
    SoloPlan(cfg, s.store, c, s.now, ViewNow(s));
    SoloEffect(cfg, s.store, c, s.now);
  }

  // ---- A member is dropped ----

  lemma OneSuppression(b: RJob, gid: string)
    ensures |SuppressWrites([b], gid)| == 2
  {
    assert [b][..0] == [] && SuppressWrites([], gid) == [];
  }

  /** The Deployment's reconcile stops once the group is recorded. */
  lemma StoppedLead(cfg: Config, env: Env, s: State, a: RJob, b: RJob) returns (t: State, gid: string)
    requires Plain(cfg) && Reachable(cfg, env, s) && Pair(s.store, a, b) && a.groupID == "" && a.groupLabel == ""
    ensures Reachable(cfg, env, t) && gid != "" && Stranded(s.store, t.store, [b], a, gid) && t.store.dispatched == s.store.dispatched
  {
    ReachInv(cfg, env, s);
    var view, step := ViewNow(s), Control(a.name, ViewNow(s), 3);
    t, gid := Next(cfg, s, step), view.nextGroup;
    MayControl(cfg, env, s, a.name, 3);
    ReachNext(cfg, env, s, step);
    PairLeads(cfg, s.store, a, b, s.now, view);
    OneSuppression(b, gid);
    var g := RouteOf(cfg, s.store, a, s.now, view).group;
    InterruptedStrands(cfg, s, a.name, view, 3, g);
    MidStopDispatchesNothing(cfg, s, a.name, view, 3, g);
  }

  lemma UntilStopped(cfg: Config, env: Env, x: Cast) returns (t: State, a: RJob, gid: string)
    requires Plain(cfg) && Proper(x)
    ensures Reachable(cfg, env, t) && Midway(t, x, a, gid)
  {
    var s0 := ReachStart(cfg, env);
    var s1 := Arrive(cfg, env, s0, x.a, x.fa);
    var s2 := Arrive(cfg, env, s1, x.b, x.fb);
    a := Newborn(cfg, s0, x.a, x.fa).(phase := Pending);
    var b := Newborn(cfg, s1, x.b, x.fb).(phase := Pending);
    assert s2.store == Store(map[a.name := a, b.name := b], map[], []);
    assert a.uid != b.uid by {
      ReachInv(cfg, env, s1);
    }
    t, gid := StoppedLead(cfg, env, s2, a, b);
    StrandedIsMidway(s2.store, t, x, a, b, gid);
    a := t.store.rjobs[a.name];
  }

  lemma StrandedIsMidway(s: Store, t: State, x: Cast, a: RJob, b: RJob, gid: string)
    requires Proper(x) && a.name == RJobName(x.fa) && b.name == RJobName(x.fb) && s == Store(map[a.name := a, b.name := b], map[], [])
    requires Stranded(s, t.store, [b], a, gid) && t.store.dispatched == [] && gid != ""
    requires a.finding == x.a && a.fingerprint == x.fa && a.phase == Pending && b.finding == x.b
    ensures Midway(t, x, t.store.rjobs[a.name], gid)
  {
    assert b in [b] && Named([b], b.name);
  }

  /** The first two have arrived and the first was interrupted. */
  ghost predicate Midway(s: State, x: Cast, a: RJob, gid: string) {
    && |x.fa| >= 12 && |x.fb| >= 12 && s.store.rjobs.Keys == {RJobName(x.fa), RJobName(x.fb)}
    && s.store.jobs == map[] && s.store.dispatched == []
    && s.store.rjobs[RJobName(x.fa)] == a && a.finding == x.a && a.fingerprint == x.fa && a.phase == Pending
    && gid != "" && a.groupID == gid
    && var b := s.store.rjobs[RJobName(x.fb)]; b.finding == x.b && b.phase == Suppressed && b.groupID == gid
  }

  /** The third arrives. */
  lemma ThirdArrives(cfg: Config, env: Env, s: State, x: Cast, a: RJob, gid: string) returns (t: State, c: RJob)
    requires Plain(cfg) && Proper(x) && Reachable(cfg, env, s) && Midway(s, x, a, gid)
    ensures Reachable(cfg, env, t) && Pair(t.store, a, c) && c.finding == x.c && t.store.dispatched == []
    ensures RJobName(x.fb) in Under(t.store, gid) && t.store.rjobs[RJobName(x.fb)].finding == x.b
  {
    assert a.name == RJobName(x.fa) && a.uid < s.nextUID by {
      ReachInv(cfg, env, s);
    }
    c := Newborn(cfg, s, x.c, x.fc).(phase := Pending);
    t := Arrive(cfg, env, s, x.c, x.fc);
    Gather(s, t, x, a, gid, c);
  }

  lemma Gather(s: State, t: State, x: Cast, a: RJob, gid: string, c: RJob)
    requires Proper(x) && Midway(s, x, a, gid) && With(s, t, c) && a.name == RJobName(x.fa)
    requires c.name == RJobName(x.fc) && c.finding == x.c && c.phase == Pending && a.uid != c.uid
    ensures Pair(t.store, a, c) && t.store.dispatched == []
    ensures RJobName(x.fb) in Under(t.store, gid) && t.store.rjobs[RJobName(x.fb)].finding == x.b
  {
  }

  /** In this and every later state no rjob that may still dispatch holds the group. */
  ghost predicate UnheldForGood(cfg: Config, env: Env, s: State, g: string) {
    forall more :: LegalRun(cfg, env, s, more) ==> Unheld(Run(cfg, s, more).store, g)
  }

  /** Leading again, the primary dispatches for the late pod and drops the member suppressed before. */
  lemma LeadsAgain(cfg: Config, env: Env, s: State, a: RJob, n: string, c: RJob) returns (t: State)
    requires Plain(cfg) && Reachable(cfg, env, s) && Pair(s.store, a, c) && a.groupID != "" && n in Under(s.store, a.groupID)
    ensures Reachable(cfg, env, t) && UnheldForGood(cfg, env, t, a.groupID)
    ensures t.store.dispatched == s.store.dispatched + [BuildJob(a, [c.finding], s.now)]
    ensures n in t.store.rjobs && t.store.rjobs[n] == s.store.rjobs[n]
  {
    ReachInv(cfg, env, s);
    var step := Fully(cfg, s, a.name);
    t := Next(cfg, s, step);
    assert Legal(cfg, env, s, step) by {
      FullyNext(cfg, env, s, a.name);
    }
    ReachNext(cfg, env, s, step);
    forall more | LegalRun(cfg, env, t, more) ensures Unheld(Run(cfg, t, more).store, a.groupID) {
      PairLeadsAgain(cfg, env, s, a, n, c, ViewNow(s), step.stop, more);
    }
    PairLeadsAgain(cfg, env, s, a, n, c, ViewNow(s), step.stop, []);
  }

  lemma PairLeadsAgain(cfg: Config, env: Env, s: State, a: RJob, n: string, c: RJob, view: View, stop: nat, more: seq<Step>)
    requires Plain(cfg) && Inv(cfg, env, s) && GroupInv(s) && Pair(s.store, a, c) && a.groupID != "" && n in Under(s.store, a.groupID)
    requires Legal(cfg, env, s, Control(a.name, view, stop)) && !view.injected && stop >= |Plan(cfg, s.store, a.name, s.now, view)|
    requires LegalRun(cfg, env, Next(cfg, s, Control(a.name, view, stop)), more)
    ensures var t := Next(cfg, s, Control(a.name, view, stop));
            && t.store.dispatched == s.store.dispatched + [BuildJob(a, [c.finding], s.now)]
            && n in t.store.rjobs && t.store.rjobs[n] == s.store.rjobs[n]
            && Unheld(Run(cfg, t, more).store, a.groupID)
  {
    PairLeads(cfg, s.store, a, c, s.now, view);
    var g := RouteOf(cfg, s.store, a, s.now, view).group;
    assert Map(FindingOf(), [c]) == [c.finding];
    LeadAgainDrops(cfg, env, s, a.name, view, stop, g, n, more);
  }

  lemma OnlyTheLate(a: RJob, late: Finding, f: Finding, now: Time)
    requires |a.fingerprint| >= 12 && a.finding != f && late != f
    ensures CarriedCount([] + [BuildJob(a, [late], now)], f) == 0
  {
    CarriedAppend([], BuildJob(a, [late], now), f);
  }

  /** A reachable state in which a group's primary has been dispatched, one of its members is suppressed
      and carried by no Job, and nobody will ever collect it. */
  lemma SecondLeadDropsMember(cfg: Config, env: Env) returns (t: State, n: string)
    requires Plain(cfg)
    ensures Reachable(cfg, env, t) && |t.store.dispatched| == 1
    ensures n in t.store.rjobs && t.store.rjobs[n].phase == Suppressed
    ensures CarriedCount(t.store.dispatched, t.store.rjobs[n].finding) == 0
    ensures UnheldForGood(cfg, env, t, t.store.rjobs[n].groupID)
  {
    var x := SomeCast();
    var s, a, gid := UntilStopped(cfg, env, x);
    var u, c := ThirdArrives(cfg, env, s, x, a, gid);
    n := RJobName(x.fb);
    t := LeadsAgain(cfg, env, u, a, n, c);
    OnlyTheLate(a, x.c, x.b, u.now);
  }

  // ---- The cap is exceeded ----

  /** A group's primary, dispatched at full capacity, adds a Job to it. */
  lemma LeadAddsJob(cfg: Config, env: Env, s: State, a: RJob, b: RJob) returns (t: State)
    requires Plain(cfg) && Reachable(cfg, env, s) && Pair(s.store, a, b)
    ensures Reachable(cfg, env, t) && |ActiveNames(t.store.jobs, t.now)| == |ActiveNames(s.store.jobs, s.now)| + 1
  {
    ReachInv(cfg, env, s);
    var view, step := ViewNow(s), Fully(cfg, s, a.name);
    t := Next(cfg, s, step);
    FullyNext(cfg, env, s, a.name);
    ReachNext(cfg, env, s, step);
    PairBypasses(cfg, s.store, a, b, s.now, view, step.stop);
    ControlNext(cfg, s, a.name, view, step.stop);
    ControlJobs(cfg, s.store, a.name, s.now, view, step.stop);
    NewJobCounts(s.store.jobs, a, FindingsFor(s.store, a, RouteOf(cfg, s.store, a, s.now, view), view), s.now);
  }

  lemma PairBypasses(cfg: Config, s: Store, a: RJob, b: RJob, now: Time, view: View, stop: nat)
    requires Plain(cfg) && WellKeyed(s) && ValidView(s, view) && Pair(s, a, b) && stop == |Plan(cfg, s, a.name, now, view)|
    ensures Bypasses(cfg, s, a.name, now, view, stop)
  {
    PairLeads(cfg, s, a, b, now, view);
    OwnedIsJob(s, a.name, view);
  }

  lemma BusyCounts(s: State, c: RJob)
    requires |c.fingerprint| >= 12 && Busy(s, c)
    ensures |ActiveNames(s.store.jobs, s.now)| == 1
  {
    var job := BuildJob(c, [], s.now);
    NewJobCounts(map[], c, [], s.now);
    assert ActiveNames(map[], s.now) == {};
    assert map[][job.name := job] == map[job.name := job];
  }

  /** The other two arrive while the third is being investigated. */
  lemma OthersArrive(cfg: Config, env: Env, s: State, x: Cast, c: RJob) returns (t: State, a: RJob, b: RJob)
    requires Plain(cfg) && Proper(x) && Reachable(cfg, env, s) && c.fingerprint == x.fc && c.name == RJobName(x.fc) && c.finding == x.c && Busy(s, c)
    ensures Reachable(cfg, env, t) && Pair(t.store, a, b) && t.store.jobs == s.store.jobs && t.now == s.now
  {
    var mid := Arrive(cfg, env, s, x.a, x.fa);
    a := Newborn(cfg, s, x.a, x.fa).(phase := Pending);
    assert a.uid < mid.nextUID by {
      ReachInv(cfg, env, mid);
      assert mid.store.rjobs[a.name] == a;
    }
    t := Arrive(cfg, env, mid, x.b, x.fb);
    b := Newborn(cfg, mid, x.b, x.fb).(phase := Pending);
    SameJobName(x.fa, x.fc);
  }

  /** With a cap of one and correlation on, a reachable state has two active Jobs: the second was dispatched
      for the primary of a group while the first was still running. */
  lemma CapIsExceeded(cfg: Config, env: Env) returns (t: State)
    requires Plain(cfg) && cfg.maxConcurrent == 1
    ensures Reachable(cfg, env, t) && |ActiveNames(t.store.jobs, t.now)| == cfg.maxConcurrent + 1
  {
    var x := SomeCast();
    var c, s := UntilBusy(cfg, env, x.c, x.fc);
    BusyCounts(s, c);
    var u, a, b := OthersArrive(cfg, env, s, x, c);
    t := LeadAddsJob(cfg, env, u, a, b);
  }

  // ---- A Job is left over ----

  /** The Job's pods fail until it is exhausted. */
  lemma Exhaust(cfg: Config, env: Env, s: State, j: string) returns (t: State)
    requires Reachable(cfg, env, s) && j in s.store.jobs && BackoffLimit(s.store.jobs[j]) == 1
    ensures Reachable(cfg, env, t) && t.now == s.now
    ensures t.store == s.store.(jobs := s.store.jobs[j := s.store.jobs[j].(active := 0, succeeded := 0, failed := 2)])
  {
    var step := JobProgress(j, 0, 0, 2);
    ReachNext(cfg, env, s, step);
    t := Next(cfg, s, step);
  }

  /** Its rjob fails with it. */
  lemma FailWithJob(cfg: Config, env: Env, s: State, n: string) returns (t: State)
    requires Reachable(cfg, env, s) && n in s.store.rjobs && s.store.rjobs[n].phase == Dispatched && s.store.rjobs[n].maxRetries != 1
    requires |s.store.rjobs[n].fingerprint| >= 12 && JobName(s.store.rjobs[n].fingerprint) in s.store.jobs
    requires var job := s.store.jobs[JobName(s.store.rjobs[n].fingerprint)]; job.succeeded == 0 && Exhausted(job)
    ensures Reachable(cfg, env, t) && t.store.jobs == s.store.jobs && t.store.rjobs.Keys == s.store.rjobs.Keys
    ensures t.store.rjobs[n].phase == Failed && SameIdentity(s.store.rjobs[n], t.store.rjobs[n])
  {
    ReachInv(cfg, env, s);
    t := ReachFully(cfg, env, s, n);
    assert s.store.rjobs[n].retryCount == 0 by {
      assert Sound(cfg, s.store.rjobs[n], s.now);
    }
    FailsWithJob(cfg, s.store, n, s.now, ViewNow(s));
  }

  lemma FailsWithJob(cfg: Config, s: Store, n: string, now: Time, view: View)
    requires WellKeyed(s) && ValidView(s, view) && n in s.rjobs && s.rjobs[n].phase == Dispatched && s.rjobs[n].maxRetries != 1 && s.rjobs[n].retryCount == 0
    requires JobName(s.rjobs[n].fingerprint) in s.jobs
    requires var job := s.jobs[JobName(s.rjobs[n].fingerprint)]; job.succeeded == 0 && Exhausted(job)
    ensures var t := CommitAll(s, Plan(cfg, s, n, now, view));
            && t.jobs == s.jobs && t.rjobs.Keys == s.rjobs.Keys && t.rjobs[n].phase == Failed && SameIdentity(s.rjobs[n], t.rjobs[n])
  {
    PlanSyncs(cfg, s, n, now, view);
    CommitOne(s, SyncFrom(n, s.jobs[JobName(s.rjobs[n].fingerprint)], now));
  }

  /** A reachable state in which a finding is reported anew, and its rjob finds the Job of the one before
      it: it will take on that Job's failure and never be dispatched. */
  lemma LeftoverIsReached(cfg: Config, env: Env) returns (t: State, n: string)
    requires Plain(cfg) && cfg.maxConcurrent >= 0 && cfg.maxRetries != 1
    ensures Reachable(cfg, env, t) && Leftover(t.store, n) && Exhausted(t.store.jobs[JobName(t.store.rjobs[n].fingerprint)])
  {
    var x := SomeCast();
    var c, s := UntilBusy(cfg, env, x.c, x.fc);
    n := c.name;
    var s1 := Exhaust(cfg, env, s, JobName(x.fc));
    var s2 := FailWithJob(cfg, env, s1, n);
    ReachInv(cfg, env, s2);
    t := Arrive(cfg, env, s2, x.c, x.fc);
  }
}
