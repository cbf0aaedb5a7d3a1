/** When a complete reconcile loses correlated findings: a primary that leads again dispatches only for
    those it suppresses itself, and one suppressed as an injection has suppressed its group by then. */
module Orphans {
  import opened Types
  import opened Seqs
  import opened Rules
  import opened Stores
  import opened Controller
  import opened Lifecycle
  import opened Plans
  import opened Runs
  import opened Capacity
  import opened Conservation
  import opened Groups
  import opened Recovery

  // ---- Groups nobody holds ----

  /** No rjob that could still dispatch holds the group. */
  ghost predicate Unheld(s: Store, g: string) {
    forall m :: m in s.rjobs && Waiting(s.rjobs[m].phase) ==> !Marks(s.rjobs[m], g)
  }

  lemma {:induction false} WritesKeepUnheld(cfg: Config, s: Store, now: Time, uid: UID, ws: seq<Write>, k: nat, n: string, h: string, g: string)
    requires AllEnabled(cfg, s, now, uid, ws) && k <= |ws| && Unheld(s, g) && h != g && g != ""
    requires forall w :: w in ws ==> Serves(w, n, h)
    ensures Unheld(CommitAll(s, ws[..k]), g)
  {
    if k > 0 {
      WritesKeepUnheld(cfg, s, now, uid, ws, k - 1, n, h, g);
      CommitStep(s, ws, k - 1);
      EnabledAt(cfg, s, now, uid, ws, k - 1);
      var mid, w := CommitAll(s, ws[..k - 1]), ws[k - 1];
      assert w in ws;
      WriteKeepsUnheld(cfg, mid, now, uid, w, n, h, g);
    } else {
      assert ws[..0] == [];
    }
  }

  lemma WriteKeepsUnheld(cfg: Config, s: Store, now: Time, uid: UID, w: Write, n: string, h: string, g: string)
    requires Enabled(cfg, s, now, uid, w) && Serves(w, n, h) && h != g && g != "" && Unheld(s, g)
    ensures Unheld(Commit(s, w), g)
  {
    var t := Commit(s, w);
    forall m | m in t.rjobs && Waiting(t.rjobs[m].phase) ensures !Marks(t.rjobs[m], g) {
      assert m in s.rjobs ==> Waiting(s.rjobs[m].phase) && !Marks(s.rjobs[m], g);
    }
  }

  lemma ControlKeepsUnheld(cfg: Config, env: Env, s: State, name: string, view: View, stop: nat, g: string)
    requires Inv(cfg, env, s) && Legal(cfg, env, s, Control(name, view, stop)) && name in s.store.rjobs
    requires g != "" && g in s.groups && Unheld(s.store, g)
    ensures Unheld(Next(cfg, s, Control(name, view, stop)).store, g)
  {
    var ws, r := Plan(cfg, s.store, name, s.now, view), s.store.rjobs[name];
    StepEnabled(cfg, env, s, Control(name, view, stop));
    PlanServes(cfg, s.store, name, s.now, view);
    var h := if r.phase == Pending then GroupIDFor(r, view.nextGroup) else "";
    assert h != g by {
      assert r.phase == Pending ==> !Marks(r, g);
    }
    var k := |Prefix(ws, stop)|;
    assert Prefix(ws, stop) == ws[..k];
    WritesKeepUnheld(cfg, s.store, s.now, s.nextUID, ws, k, name, h, g);
  }

  lemma ProvideKeepsUnheld(cfg: Config, env: Env, s: State, step: Step, g: string)
    requires Inv(cfg, env, s) && Legal(cfg, env, s, step) && step.Provide? && g != "" && Unheld(s.store, g)
    ensures Unheld(Next(cfg, s, step).store, g)
  {
    var ws, k := ProvideWrites(cfg, env, s, step);
    WritesKeepUnheld(cfg, s.store, s.now, s.nextUID, ws, k, "", "", g);
  }

  lemma SinkKeepsUnheld(cfg: Config, s: State, n: string, url: string, g: string)
    requires n in s.store.rjobs && Unheld(s.store, g)
    ensures Unheld(Next(cfg, s, AgentSink(n, url)).store, g)
  {
    var t := Next(cfg, s, AgentSink(n, url)).store;
    forall m | m in t.rjobs && Waiting(t.rjobs[m].phase) ensures !Marks(t.rjobs[m], g) {
      assert !Marks(s.store.rjobs[m], g);
    }
  }

  lemma StepKeepsUnheld(cfg: Config, env: Env, s: State, step: Step, g: string)
    requires Inv(cfg, env, s) && Legal(cfg, env, s, step) && g != "" && g in s.groups && Unheld(s.store, g)
    ensures Unheld(Next(cfg, s, step).store, g) && g in Next(cfg, s, step).groups
  {
    match step
    case Control(name, view, stop) =>
      if name in s.store.rjobs {
        ControlKeepsUnheld(cfg, env, s, name, view, stop, g);
      }
    case Provide(_, _, _, _) =>
      ProvideKeepsUnheld(cfg, env, s, step, g);
    case AgentSink(n, url) =>
      SinkKeepsUnheld(cfg, s, n, url, g);
    case _ =>
  }

  /** A group no waiting rjob holds is never dispatched again: no run gives it a holder. */
  lemma {:induction false} RunKeepsUnheld(cfg: Config, env: Env, s: State, steps: seq<Step>, g: string)
    requires Inv(cfg, env, s) && LegalRun(cfg, env, s, steps) && g != "" && g in s.groups && Unheld(s.store, g)
    ensures Unheld(Run(cfg, s, steps).store, g)
    decreases |steps|
  {
    if steps != [] {
      StepKeepsInv(cfg, env, s, steps[0]);
      StepKeepsUnheld(cfg, env, s, steps[0], g);
      RunKeepsUnheld(cfg, env, Next(cfg, s, steps[0]), steps[1..], g);
    }
  }

  // ---- A second attempt that leads again ----

  lemma FormCount(cfg: Config, s: Store, r: RJob, g: Group, view: View, gid: string, f: Finding)
    requires WellKeyed(s) && ValidView(s, view) && gid != ""
    requires r.name in s.rjobs && s.rjobs[r.name] == r && r.phase == Pending
    ensures |UnderWith(CommitAll(s, FormWrites(s, r, g, gid, view)), gid, f)| ==
            |UnderWith(s, gid, f)| + multiset(Map(FindingOf(), Members(s, r, g, view)))[f]
  {
    var ms, mid := Members(s, r, g, view), CommitAll(s, FormWrites(s, r, g, gid, view));
    assert Stranded(s, mid, ms, r, gid) by {
      FormEnabled(cfg, s, 0, 0, r, g, gid, view);
    }
    MembersSuppressible(s, r, g, view);
    PrimaryNotMember(s, r, g, view);
    StrandedCount(s, mid, ms, r, gid, f);
  }

  lemma DispatchKeepsUnder(cfg: Config, s0: Store, s: Store, r: RJob, findings: seq<Finding>, now: Time, injected: bool,
                           g: string, f: Finding)
    requires |r.fingerprint| >= 12 && JobName(r.fingerprint) !in s.jobs && s.jobs == s0.jobs
    requires r.name in s.rjobs && s.rjobs[r.name].phase == Pending && !(injected && cfg.suppressInjection)
    requires s.rjobs[r.name].(groupID := r.groupID, groupLabel := r.groupLabel, role := r.role) == r
    ensures var t := CommitAll(s, DispatchWrites(cfg, s0, r, findings, now, injected));
            t.dispatched == s.dispatched + [BuildJob(r, findings, now)] && UnderWith(t, g, f) == UnderWith(s, g, f)
  {
    var job := BuildJob(r, findings, now);
    var r' := s.rjobs[r.name].(phase := Dispatched, jobRef := job.name, dispatchedAt := Some(now));
    var t := CommitAll(s, DispatchWrites(cfg, s0, r, findings, now, injected));
    assert t.rjobs == s.rjobs[r.name := r'] && t.dispatched == s.dispatched + [job] by {
      DispatchEnabled(cfg, s0, s, now, 0, r, findings, injected);
    }
  }

  /** After a group is formed and its primary dispatched, its members are those it had before and
      those just suppressed. */
  lemma LeadCount(cfg: Config, s: Store, r: RJob, g: Group, now: Time, view: View, f: Finding)
    requires WellKeyed(s) && ValidView(s, view) && view.nextGroup != ""
    requires r.name in s.rjobs && s.rjobs[r.name] == r && r.phase == Pending && JobName(r.fingerprint) !in s.jobs
    requires !(view.injected && cfg.suppressInjection)
    ensures var t, gid := CommitAll(s, LeadWrites(cfg, s, r, g, now, view)), GroupIDFor(r, view.nextGroup);
            && t.dispatched == s.dispatched + [BuildJob(r, g.findings, now)]
            && |UnderWith(t, gid, f)| == |UnderWith(s, gid, f)| + multiset(Map(FindingOf(), Members(s, r, g, view)))[f]
  {
    var gid := GroupIDFor(r, view.nextGroup);
    var form, d := FormWrites(s, r, g, gid, view), DispatchWrites(cfg, s, r, g.findings, now, view.injected);
    FormCount(cfg, s, r, g, view, gid, f);
    FormEnabled(cfg, s, now, 0, r, g, gid, view);
    DispatchKeepsUnder(cfg, s, CommitAll(s, form), r, g.findings, now, view.injected, gid, f);
    CommitConcat(s, form, d);
  }

  /** Findings that account for everyone newly suppressed account for all exactly when there was
      nobody before. */
  lemma AllIffNoneBefore(s: Store, t: Store, gid: string, fs: seq<Finding>)
    requires forall f :: |UnderWith(t, gid, f)| == |UnderWith(s, gid, f)| + multiset(fs)[f]
    ensures (forall f :: multiset(fs)[f] == |UnderWith(t, gid, f)|) <==> Under(s, gid) == {}
  {
    if n :| n in Under(s, gid) {
      var f := s.rjobs[n].finding;
      assert n in UnderWith(s, gid, f);
      assert |UnderWith(t, gid, f)| != multiset(fs)[f];
    } else {
      forall f ensures multiset(fs)[f] == |UnderWith(t, gid, f)| {
        assert UnderWith(s, gid, f) == {};
      }
    }
  }

  /** A leading rjob's Job carries everyone suppressed under its group exactly when nobody was
      suppressed under it before this reconcile began. */
  lemma LeadCarriesGroupIff(cfg: Config, s: Store, r: RJob, now: Time, view: View)
    requires WellKeyed(s) && ValidView(s, view) && view.nextGroup != ""
    requires r.name in s.rjobs && s.rjobs[r.name] == r && r.phase == Pending && JobName(r.fingerprint) !in s.jobs
    requires RouteOf(cfg, s, r, now, view).Lead? && !(view.injected && cfg.suppressInjection)
    ensures var t, gid := CommitAll(s, Plan(cfg, s, r.name, now, view)), GroupIDFor(r, view.nextGroup);
            && |t.dispatched| == |s.dispatched| + 1
            && ((forall f :: multiset(t.dispatched[|s.dispatched|].correlated)[f] == |UnderWith(t, gid, f)|)
                <==> Under(s, gid) == {})
  {
    var g := RouteOf(cfg, s, r, now, view).group;
    var t, gid := CommitAll(s, Plan(cfg, s, r.name, now, view)), GroupIDFor(r, view.nextGroup);
    assert Plan(cfg, s, r.name, now, view) == LeadWrites(cfg, s, r, g, now, view) by {
      OwnedIsJob(s, r.name, view);
    }
    assert g.findings == Map(FindingOf(), Members(s, r, g, view)) by {
      LeadFindings(cfg, s, r, now, view);
    }
    LeadCount(cfg, s, r, g, now, view, r.finding);
    forall f ensures |UnderWith(t, gid, f)| == |UnderWith(s, gid, f)| + multiset(g.findings)[f] {
      LeadCount(cfg, s, r, g, now, view, f);
    }
    AllIffNoneBefore(s, t, gid, g.findings);
  }

  // ---- After a complete leading reconcile ----

  /** A leading reconcile, complete or not, leaves its group to its primary alone. */
  lemma LeadStaysExclusive(cfg: Config, env: Env, s: State, name: string, view: View, stop: nat)
    requires Inv(cfg, env, s) && GroupInv(s) && Legal(cfg, env, s, Control(name, view, stop))
    requires name in s.store.rjobs && s.store.rjobs[name].phase == Pending
    ensures var gid, t := GroupIDFor(s.store.rjobs[name], view.nextGroup), Next(cfg, s, Control(name, view, stop));
            Exclusive(t.store, name, gid) && gid != "" && gid in t.groups
  {
    var ws, groups := Plan(cfg, s.store, name, s.now, view), s.groups + {view.nextGroup};
    StepEnabled(cfg, env, s, Control(name, view, stop));
    PlanServes(cfg, s.store, name, s.now, view);
    MayTakeOwn(s, name, view.nextGroup);
    var k := |Prefix(ws, stop)|;
    assert Prefix(ws, stop) == ws[..k];
    WritesKeepGroups(cfg, s.store, s.now, s.nextUID, ws, k, name, GroupIDFor(s.store.rjobs[name], view.nextGroup), groups);
  }

  /** The store after a complete leading reconcile, in two parts. */
  lemma LeadStore(cfg: Config, s: State, name: string, view: View, stop: nat, g: Group)
    requires WellKeyed(s.store) && ValidView(s.store, view) && view.nextGroup != ""
    requires name in s.store.rjobs && Dispatchable(s.store, s.store.rjobs[name])
    requires RouteOf(cfg, s.store, s.store.rjobs[name], s.now, view) == Lead(g)
    requires stop >= |Plan(cfg, s.store, name, s.now, view)|
    ensures var r, t := s.store.rjobs[name], Next(cfg, s, Control(name, view, stop)).store;
            && t == CommitAll(s.store, LeadWrites(cfg, s.store, r, g, s.now, view))
            && name in t.rjobs && !Waiting(t.rjobs[name].phase)
  {
    var r, plan := s.store.rjobs[name], Plan(cfg, s.store, name, s.now, view);
    assert plan == LeadWrites(cfg, s.store, r, g, s.now, view) by {
      OwnedIsJob(s.store, name, view);
    }
    assert Prefix(plan, stop) == plan;
    LeadEnds(cfg, s.store, r, g, s.now, view);
  }

  lemma LeadEnds(cfg: Config, s: Store, r: RJob, g: Group, now: Time, view: View)
    requires WellKeyed(s) && ValidView(s, view) && view.nextGroup != "" && Dispatchable(s, r)
    ensures var t := CommitAll(s, LeadWrites(cfg, s, r, g, now, view)); r.name in t.rjobs && !Waiting(t.rjobs[r.name].phase)
  {
    var gid := GroupIDFor(r, view.nextGroup);
    var form := FormWrites(s, r, g, gid, view);
    FormEnabled(cfg, s, now, 0, r, g, gid, view);
    CommitConcat(s, form, DispatchWrites(cfg, s, r, g.findings, now, view.injected));
    DispatchEnds(cfg, s, CommitAll(s, form), r, g.findings, now, view.injected);
  }

  lemma DispatchEnds(cfg: Config, s0: Store, s: Store, r: RJob, findings: seq<Finding>, now: Time, injected: bool)
    requires |r.fingerprint| >= 12 && JobName(r.fingerprint) !in s.jobs && s.jobs == s0.jobs
    requires r.name in s.rjobs && s.rjobs[r.name].phase == Pending
    requires s.rjobs[r.name].(groupID := r.groupID, groupLabel := r.groupLabel, role := r.role) == r
    ensures var t := CommitAll(s, DispatchWrites(cfg, s0, r, findings, now, injected));
            r.name in t.rjobs && !Waiting(t.rjobs[r.name].phase)
  {
    if Quashed(cfg, injected) {
      CommitOne(s, FailPermanently(r.name));
    } else {
      DispatchEnabled(cfg, s0, s, now, 0, r, findings, injected);
    }
  }

  /** Once its primary is through, nobody ever holds the group again. */
  lemma LeadReleases(cfg: Config, env: Env, s: State, name: string, view: View, stop: nat, g: Group, steps: seq<Step>)
    requires Inv(cfg, env, s) && GroupInv(s) && Legal(cfg, env, s, Control(name, view, stop))
    requires name in s.store.rjobs && Dispatchable(s.store, s.store.rjobs[name])
    requires RouteOf(cfg, s.store, s.store.rjobs[name], s.now, view) == Lead(g)
    requires stop >= |Plan(cfg, s.store, name, s.now, view)|
    requires LegalRun(cfg, env, Next(cfg, s, Control(name, view, stop)), steps)
    ensures Unheld(Run(cfg, Next(cfg, s, Control(name, view, stop)), steps).store, GroupIDFor(s.store.rjobs[name], view.nextGroup))
  {
    LeadStaysExclusive(cfg, env, s, name, view, stop);
    LeadStore(cfg, s, name, view, stop, g);
    StepKeepsInv(cfg, env, s, Control(name, view, stop));
    RunKeepsUnheld(cfg, env, Next(cfg, s, Control(name, view, stop)), steps, GroupIDFor(s.store.rjobs[name], view.nextGroup));
  }

  /** A primary that leads again dispatches for those it suppresses now. Whoever an earlier attempt had
      suppressed is not among them, stays suppressed under the group, and, as in no later state of any run
      does an rjob that may still dispatch hold the group, is never collected. */
  lemma LeadAgainDrops(cfg: Config, env: Env, s: State, name: string, view: View, stop: nat, g: Group, n: string, steps: seq<Step>)
    requires Inv(cfg, env, s) && GroupInv(s) && Legal(cfg, env, s, Control(name, view, stop))
    requires name in s.store.rjobs && Dispatchable(s.store, s.store.rjobs[name]) && !Quashed(cfg, view.injected)
    requires RouteOf(cfg, s.store, s.store.rjobs[name], s.now, view) == Lead(g)
    requires stop >= |Plan(cfg, s.store, name, s.now, view)|
    requires n in Under(s.store, GroupIDFor(s.store.rjobs[name], view.nextGroup))
    requires LegalRun(cfg, env, Next(cfg, s, Control(name, view, stop)), steps)
    ensures var r, t := s.store.rjobs[name], Next(cfg, s, Control(name, view, stop));
            var gid, ms := GroupIDFor(r, view.nextGroup), Members(s.store, r, g, view);
            && t.store.dispatched == s.store.dispatched + [BuildJob(r, Map(FindingOf(), ms), s.now)] && !Named(ms, n)
            && n in t.store.rjobs && t.store.rjobs[n] == s.store.rjobs[n]
            && Unheld(Run(cfg, t, steps).store, gid)
  {
    var r, t := s.store.rjobs[name], Next(cfg, s, Control(name, view, stop));
    LeadReleases(cfg, env, s, name, view, stop, g, steps);
    LeadStore(cfg, s, name, view, stop, g);
    LeadFindings(cfg, s.store, r, s.now, view);
    LeadCount(cfg, s.store, r, g, s.now, view, r.finding);
    MembersSuppressible(s.store, r, g, view);
    LeadLeaves(cfg, s.store, r, g, s.now, view, n);
  }

  lemma DispatchLeaves(cfg: Config, s0: Store, s: Store, r: RJob, findings: seq<Finding>, now: Time, injected: bool, n: string)
    requires |r.fingerprint| >= 12 && JobName(r.fingerprint) !in s.jobs && s.jobs == s0.jobs
    requires r.name in s.rjobs && s.rjobs[r.name].phase == Pending && !Quashed(cfg, injected) && n in s.rjobs && n != r.name
    requires s.rjobs[r.name].(groupID := r.groupID, groupLabel := r.groupLabel, role := r.role) == r
    ensures var t := CommitAll(s, DispatchWrites(cfg, s0, r, findings, now, injected)); n in t.rjobs && t.rjobs[n] == s.rjobs[n]
  {
    DispatchEnabled(cfg, s0, s, now, 0, r, findings, injected);
  }

  lemma LeadLeaves(cfg: Config, s: Store, r: RJob, g: Group, now: Time, view: View, n: string)
    requires WellKeyed(s) && ValidView(s, view) && view.nextGroup != "" && Dispatchable(s, r) && !Quashed(cfg, view.injected)
    requires n in s.rjobs && s.rjobs[n].phase == Suppressed
    ensures var t := CommitAll(s, LeadWrites(cfg, s, r, g, now, view)); n in t.rjobs && t.rjobs[n] == s.rjobs[n]
  {
    var gid := GroupIDFor(r, view.nextGroup);
    var form, d := FormWrites(s, r, g, gid, view), DispatchWrites(cfg, s, r, g.findings, now, view.injected);
    var mid := CommitAll(s, form);
    FormEnabled(cfg, s, now, 0, r, g, gid, view);
    assert n in mid.rjobs && mid.rjobs[n] == s.rjobs[n] by {
      MembersSuppressible(s, r, g, view);
    }
    DispatchLeaves(cfg, s, mid, r, g.findings, now, view.injected, n);
    CommitConcat(s, form, d);
  }

  /** A primary suppressed as an injection takes its group with it: its own finding and those of the
      members it has just suppressed are lost, exactly these, and for good. */
  lemma InjectionLosesGroup(cfg: Config, env: Env, s: State, name: string, view: View, stop: nat, g: Group, steps: seq<Step>, f: Finding)
    requires Inv(cfg, env, s) && GroupInv(s) && Legal(cfg, env, s, Control(name, view, stop))
    requires name in s.store.rjobs && Dispatchable(s.store, s.store.rjobs[name]) && Quashed(cfg, view.injected)
    requires RouteOf(cfg, s.store, s.store.rjobs[name], s.now, view) == Lead(g)
    requires stop >= |Plan(cfg, s.store, name, s.now, view)|
    requires LegalRun(cfg, env, Next(cfg, s, Control(name, view, stop)), steps)
    ensures var r, t := s.store.rjobs[name], Next(cfg, s, Control(name, view, stop));
            var gid := GroupIDFor(r, view.nextGroup);
            && Held(t.store, f) + Own(r, f) + multiset(g.findings)[f] == Held(s.store, f)
            && |UnderWith(t.store, gid, f)| == |UnderWith(s.store, gid, f)| + multiset(g.findings)[f]
            && Unheld(Run(cfg, t, steps).store, gid)
  {
    var r := s.store.rjobs[name];
    LeadReleases(cfg, env, s, name, view, stop, g, steps);
    LeadStore(cfg, s, name, view, stop, g);
    LeadConserves(cfg, s.store, r, s.now, view, f);
    LeadFindings(cfg, s.store, r, s.now, view);
    QuashedCount(cfg, s.store, r, g, s.now, view, f);
  }

  lemma QuashedCount(cfg: Config, s: Store, r: RJob, g: Group, now: Time, view: View, f: Finding)
    requires WellKeyed(s) && ValidView(s, view) && view.nextGroup != "" && Dispatchable(s, r) && Quashed(cfg, view.injected)
    ensures var t, gid := CommitAll(s, LeadWrites(cfg, s, r, g, now, view)), GroupIDFor(r, view.nextGroup);
            |UnderWith(t, gid, f)| == |UnderWith(s, gid, f)| + multiset(Map(FindingOf(), Members(s, r, g, view)))[f]
  {
    var gid := GroupIDFor(r, view.nextGroup);
    var form := FormWrites(s, r, g, gid, view);
    FormCount(cfg, s, r, g, view, gid, f);
    assert r.name in CommitAll(s, form).rjobs && CommitAll(s, form).rjobs[r.name].phase == Pending by {
      FormEnabled(cfg, s, now, 0, r, g, gid, view);
    }
    CommitConcat(s, form, [FailPermanently(r.name)]);
    QuashKeepsUnder(CommitAll(s, form), r.name, gid, f);
  }

  lemma QuashKeepsUnder(s: Store, n: string, g: string, f: Finding)
    requires n in s.rjobs && s.rjobs[n].phase == Pending
    ensures UnderWith(CommitAll(s, [FailPermanently(n)]), g, f) == UnderWith(s, g, f)
  {
    CommitOne(s, FailPermanently(n));
  }
}
