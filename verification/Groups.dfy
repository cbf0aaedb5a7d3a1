/** Correlation groups over time: the identifier a primary holds is never held by another rjob that
    still waits, so a group interrupted by a failure keeps its members. */
module Groups {
  import opened Types
  import opened Rules
  import opened Stores
  import opened Controller
  import opened Lifecycle
  import opened Plans
  import opened Runs
  import opened Guarantees
  import opened Capacity

  predicate Marks(r: RJob, g: string) {
    r.groupID == g || r.groupLabel == g
  }

  /** No waiting rjob but `n` holds the identifier. */
  ghost predicate Exclusive(s: Store, n: string, g: string) {
    forall m :: m in s.rjobs && m != n && Waiting(s.rjobs[m].phase) ==> !Marks(s.rjobs[m], g)
  }

  ghost predicate Disjoint(s: Store) {
    forall n, g :: n in s.rjobs && Waiting(s.rjobs[n].phase) && g != "" && Marks(s.rjobs[n], g) ==> Exclusive(s, n, g)
  }

  /** Every identifier in use was given out. */
  ghost predicate Known(s: Store, groups: set<string>) {
    forall n, g :: n in s.rjobs && Marks(s.rjobs[n], g) ==> g == "" || g in groups
  }

  ghost predicate GroupInv(s: State) {
    Disjoint(s.store) && Known(s.store, s.groups)
  }

  /** The rjobs suppressed under a group. */
  function Under(s: Store, g: string): set<string> {
    set n | n in s.rjobs && s.rjobs[n].phase == Suppressed && s.rjobs[n].groupID == g
  }

  predicate Tagging(w: Write) {
    w.SetGroup? || w.LabelPrimary? || w.SuppressStatus? || w.SuppressLabel?
  }

  /** As part of a reconcile of `n`: the group is recorded on `n`, others are suppressed under it,
      and a Job is for `n`. */
  predicate Serves(w: Write, n: string, g: string) {
    && (w.SetGroup? || w.LabelPrimary? ==> w.name == n && w.group == g)
    && (w.SuppressStatus? || w.SuppressLabel? ==> w.name != n && w.group == g)
    && (w.CreateJob? ==> w.job.rjobLabel == n)
  }

  // ---- Which group a reconcile writes ----

  lemma {:induction false} SuppressServes(ms: seq<RJob>, n: string, g: string)
    requires forall m :: m in ms ==> m.name != n
    ensures forall w :: w in SuppressWrites(ms, g) ==> Serves(w, n, g)
  {
    if ms != [] {
      assert forall m :: m in ms[..|ms| - 1] ==> m in ms;
      assert ms[|ms| - 1] in ms;
      SuppressServes(ms[..|ms| - 1], n, g);
    }
  }

  lemma LeadServes(cfg: Config, s: Store, r: RJob, g: Group, now: Time, view: View)
    requires WellKeyed(s) && ValidView(s, view) && r.name in s.rjobs && s.rjobs[r.name] == r
    ensures forall w :: w in LeadWrites(cfg, s, r, g, now, view) ==> Serves(w, r.name, GroupIDFor(r, view.nextGroup))
  {
    var ms, gid := Members(s, r, g, view), GroupIDFor(r, view.nextGroup);
    assert forall w :: w in SuppressWrites(ms, gid) ==> Serves(w, r.name, gid) by {
      PrimaryNotMember(s, r, g, view);
      SuppressServes(ms, r.name, gid);
    }
    DispatchServes(cfg, s, r, g.findings, now, view.injected, gid);
  }

  lemma DispatchServes(cfg: Config, s: Store, r: RJob, findings: seq<Finding>, now: Time, injected: bool, gid: string)
    ensures forall w :: w in DispatchWrites(cfg, s, r, findings, now, injected) ==> Serves(w, r.name, gid)
  {
  }

  lemma PendingServes(cfg: Config, s: Store, name: string, now: Time, view: View)
    requires WellKeyed(s) && ValidView(s, view) && name in s.rjobs
    ensures var r := s.rjobs[name];
            forall w :: w in PendingWrites(cfg, s, r, now, view) ==> Serves(w, name, GroupIDFor(r, view.nextGroup))
  {
    var r := s.rjobs[name];
    var gid := GroupIDFor(r, view.nextGroup);
    match RouteOf(cfg, s, r, now, view)
    case Hold =>
    case Lead(g) =>
      LeadServes(cfg, s, r, g, now, view);
    case Recover =>
      DispatchServes(cfg, s, r, Recovered(s, r, view), now, view.injected, gid);
    case Solo =>
      DispatchServes(cfg, s, r, [], now, view.injected, gid);
  }

  lemma PlanServes(cfg: Config, s: Store, name: string, now: Time, view: View)
    requires WellKeyed(s) && ValidView(s, view) && name in s.rjobs
    ensures forall w :: w in Plan(cfg, s, name, now, view) ==> Serves(w, name, GroupIDFor(s.rjobs[name], view.nextGroup))
    ensures s.rjobs[name].phase != Pending ==> forall w :: w in Plan(cfg, s, name, now, view) ==> !Tagging(w)
  {
    PendingServes(cfg, s, name, now, view);
  }

  // ---- Identifiers stay disjoint ----

  /** `n` may record the group `g`. */
  ghost predicate MayTake(s: Store, groups: set<string>, n: string, g: string) {
    g != "" && g in groups && Exclusive(s, n, g)
  }

  lemma WriteKeepsExclusive(cfg: Config, s: Store, now: Time, uid: UID, w: Write, n: string, g: string)
    requires Enabled(cfg, s, now, uid, w) && Serves(w, n, g) && g != "" && Exclusive(s, n, g)
    ensures Exclusive(Commit(s, w), n, g)
  {
  }

  lemma WriteKeepsDisjoint(cfg: Config, s: Store, now: Time, uid: UID, w: Write, n: string, g: string)
    requires Enabled(cfg, s, now, uid, w) && Serves(w, n, g) && Disjoint(s)
    requires Tagging(w) ==> g != "" && Exclusive(s, n, g)
    ensures Disjoint(Commit(s, w))
  {
    var t := Commit(s, w);
    forall m, h | m in t.rjobs && Waiting(t.rjobs[m].phase) && h != "" && Marks(t.rjobs[m], h) ensures Exclusive(t, m, h) {
      if m in s.rjobs && Marks(s.rjobs[m], h) {
        assert Exclusive(s, m, h);
      }
      forall k | k in t.rjobs && k != m && Waiting(t.rjobs[k].phase) ensures !Marks(t.rjobs[k], h) {
        assert k in s.rjobs && Waiting(s.rjobs[k].phase) && Marks(s.rjobs[k], h) ==> Exclusive(s, k, h);
      }
    }
  }

  lemma WriteKeepsKnown(cfg: Config, s: Store, now: Time, uid: UID, w: Write, n: string, g: string, groups: set<string>)
    requires Enabled(cfg, s, now, uid, w) && Serves(w, n, g) && Known(s, groups)
    requires Tagging(w) ==> g in groups
    ensures Known(Commit(s, w), groups)
  {
    var t := Commit(s, w);
    forall m, h | m in t.rjobs && Marks(t.rjobs[m], h) ensures h == "" || h in groups {
      assert m in s.rjobs && !Tagging(w) ==> Marks(s.rjobs[m], h);
      assert m in s.rjobs ==> Marks(s.rjobs[m], h) || h == g;
    }
  }

  lemma {:induction false} WritesKeepGroups(cfg: Config, s: Store, now: Time, uid: UID, ws: seq<Write>, k: nat,
                                            n: string, g: string, groups: set<string>)
    requires AllEnabled(cfg, s, now, uid, ws) && k <= |ws| && Disjoint(s) && Known(s, groups)
    requires forall w :: w in ws ==> Serves(w, n, g)
    requires MayTake(s, groups, n, g) || forall w :: w in ws ==> !Tagging(w)
    ensures var t := CommitAll(s, ws[..k]);
            Disjoint(t) && Known(t, groups) && (MayTake(s, groups, n, g) ==> MayTake(t, groups, n, g))
  {
    if k > 0 {
      WritesKeepGroups(cfg, s, now, uid, ws, k - 1, n, g, groups);
      CommitStep(s, ws, k - 1);
      EnabledAt(cfg, s, now, uid, ws, k - 1);
      var mid, w := CommitAll(s, ws[..k - 1]), ws[k - 1];
      assert Enabled(cfg, mid, now, uid, w) && w in ws;
      if MayTake(s, groups, n, g) {
        WriteKeepsExclusive(cfg, mid, now, uid, w, n, g);
      }
      WriteKeepsDisjoint(cfg, mid, now, uid, w, n, g);
      WriteKeepsKnown(cfg, mid, now, uid, w, n, g, groups);
    } else {
      assert ws[..0] == [];
    }
  }

  /** The group a Pending rjob would record is its own or unused. */
  lemma MayTakeOwn(s: State, name: string, nextGroup: string)
    requires GroupInv(s) && name in s.store.rjobs && s.store.rjobs[name].phase == Pending
    requires nextGroup != "" && nextGroup !in s.groups
    ensures MayTake(s.store, s.groups + {nextGroup}, name, GroupIDFor(s.store.rjobs[name], nextGroup))
  {
    var r := s.store.rjobs[name];
    var g := GroupIDFor(r, nextGroup);
    if g != nextGroup {
      assert Marks(r, g);
    } else {
      forall m | m in s.store.rjobs && m != name && Waiting(s.store.rjobs[m].phase) ensures !Marks(s.store.rjobs[m], g) {
        assert Marks(s.store.rjobs[m], g) ==> g in s.groups;
      }
    }
  }

  lemma ControlKeepsGroups(cfg: Config, env: Env, s: State, name: string, view: View, stop: nat)
    requires Inv(cfg, env, s) && GroupInv(s) && Legal(cfg, env, s, Control(name, view, stop)) && name in s.store.rjobs
    ensures GroupInv(Next(cfg, s, Control(name, view, stop)))
  {
    var groups, ws := s.groups + {view.nextGroup}, Plan(cfg, s.store, name, s.now, view);
    StepEnabled(cfg, env, s, Control(name, view, stop));
    PlanServes(cfg, s.store, name, s.now, view);
    if s.store.rjobs[name].phase == Pending {
      MayTakeOwn(s, name, view.nextGroup);
    }
    var k := |Prefix(ws, stop)|;
    assert Prefix(ws, stop) == ws[..k];
    WritesKeepGroups(cfg, s.store, s.now, s.nextUID, ws, k, name, GroupIDFor(s.store.rjobs[name], view.nextGroup), groups);
  }

  lemma ProvideKeepsGroups(cfg: Config, env: Env, s: State, step: Step)
    requires Inv(cfg, env, s) && GroupInv(s) && Legal(cfg, env, s, step) && step.Provide?
    ensures GroupInv(Next(cfg, s, step))
  {
    var ws, k := ProvideWrites(cfg, env, s, step);
    WritesKeepGroups(cfg, s.store, s.now, s.nextUID, ws, k, "", "", s.groups);
  }

  lemma StepKeepsGroups(cfg: Config, env: Env, s: State, step: Step)
    requires Inv(cfg, env, s) && GroupInv(s) && Legal(cfg, env, s, step)
    ensures GroupInv(Next(cfg, s, step))
  {
    match step
    case Control(name, view, stop) =>
      if name in s.store.rjobs {
        ControlKeepsGroups(cfg, env, s, name, view, stop);
      }
    case Provide(_, _, _, _) =>
      ProvideKeepsGroups(cfg, env, s, step);
    case AgentSink(n, url) =>
      SinkKeepsGroups(cfg, s, n, url);
    case _ =>
  }

  lemma SinkKeepsGroups(cfg: Config, s: State, n: string, url: string)
    requires GroupInv(s) && n in s.store.rjobs
    ensures GroupInv(Next(cfg, s, AgentSink(n, url)))
  {
    var a, t := s.store, Next(cfg, s, AgentSink(n, url)).store;
    forall m, g | m in t.rjobs && Waiting(t.rjobs[m].phase) && g != "" && Marks(t.rjobs[m], g) ensures Exclusive(t, m, g) {
      assert Marks(a.rjobs[m], g);
      assert Exclusive(a, m, g);
    }
    forall m, g | m in t.rjobs && Marks(t.rjobs[m], g) ensures g == "" || g in s.groups {
      assert Marks(a.rjobs[m], g);
    }
  }

  /** In every run, no two waiting rjobs share a group identifier, and all were given out. */
  lemma {:induction false} RunKeepsGroups(cfg: Config, env: Env, s: State, steps: seq<Step>)
    requires Inv(cfg, env, s) && GroupInv(s) && LegalRun(cfg, env, s, steps)
    ensures GroupInv(Run(cfg, s, steps))
    decreases |steps|
  {
    if steps != [] {
      StepKeepsInv(cfg, env, s, steps[0]);
      StepKeepsGroups(cfg, env, s, steps[0]);
      RunKeepsGroups(cfg, env, Next(cfg, s, steps[0]), steps[1..]);
    }
  }

  /** From the start, then, this holds in every reachable state. */
  lemma GroupsStayDisjoint(cfg: Config, env: Env, s: State, steps: seq<Step>)
    requires Initial(s) && LegalRun(cfg, env, s, steps)
    ensures Inv(cfg, env, Run(cfg, s, steps)) && GroupInv(Run(cfg, s, steps))
  {
    InitialInv(cfg, env, s);
    RunKeepsInv(cfg, env, s, steps);
    RunKeepsGroups(cfg, env, s, steps);
  }

  // ---- While a group waits for its primary ----

  /** Since `a`: nobody else holds the group of `r`, nobody joined it, `r` still holds it while it
      waits, and there is no Job under its name. */
  ghost predicate Steady(a: Store, s: Store, r: RJob, g: string)
    requires |r.fingerprint| >= 12
  {
    && Exclusive(s, r.name, g)
    && Under(s, g) <= Under(a, g)
    && (Present(s, r) && Waiting(s.rjobs[r.name].phase) ==> s.rjobs[r.name].groupID == g)
    && JobName(r.fingerprint) !in s.jobs
  }

  lemma NoOtherJob(cfg: Config, s: Store, now: Time, uid: UID, w: Write, r: RJob)
    requires WellKeyed(s) && Enabled(cfg, s, now, uid, w) && |r.fingerprint| >= 12 && r.name == RJobName(r.fingerprint)
    requires w.CreateJob? ==> w.job.rjobLabel != r.name
    requires JobName(r.fingerprint) !in s.jobs
    ensures JobName(r.fingerprint) !in Commit(s, w).jobs
  {
    if w.CreateJob? {
      SameJobName(s.rjobs[w.job.rjobLabel].fingerprint, r.fingerprint);
    }
  }

  /** A write for another rjob and another group adds nobody to this one. */
  lemma NobodyJoins(cfg: Config, s: Store, now: Time, uid: UID, w: Write, n: string, h: string, g: string)
    requires Enabled(cfg, s, now, uid, w) && Serves(w, n, h) && h != g
    ensures Under(Commit(s, w), g) <= Under(s, g)
  {
  }

  lemma NobodyTakes(cfg: Config, s: Store, now: Time, uid: UID, w: Write, n: string, h: string, name: string, g: string)
    requires Enabled(cfg, s, now, uid, w) && Serves(w, n, h) && h != g && g != "" && Exclusive(s, name, g)
    ensures Exclusive(Commit(s, w), name, g)
  {
    var t := Commit(s, w);
    forall m | m in t.rjobs && m != name && Waiting(t.rjobs[m].phase) ensures !Marks(t.rjobs[m], g) {
      assert m in s.rjobs ==> Waiting(s.rjobs[m].phase) && !Marks(s.rjobs[m], g);
    }
  }

  lemma StillHolds(cfg: Config, s: Store, now: Time, uid: UID, w: Write, n: string, h: string, r: RJob, g: string)
    requires Enabled(cfg, s, now, uid, w) && Serves(w, n, h) && n != r.name && r.uid < uid
    requires Present(s, r) && Waiting(s.rjobs[r.name].phase) ==> s.rjobs[r.name].groupID == g
    ensures var t := Commit(s, w); Present(t, r) && Waiting(t.rjobs[r.name].phase) ==> t.rjobs[r.name].groupID == g
  {
  }

  lemma WriteSteady(cfg: Config, a: Store, s: Store, now: Time, uid: UID, w: Write, n: string, h: string, r: RJob, g: string)
    requires WellKeyed(s) && Enabled(cfg, s, now, uid, w) && Serves(w, n, h) && n != r.name && h != g && g != ""
    requires |r.fingerprint| >= 12 && r.name == RJobName(r.fingerprint) && r.uid < uid && Steady(a, s, r, g)
    ensures Steady(a, Commit(s, w), r, g)
  {
    NoOtherJob(cfg, s, now, uid, w, r);
    NobodyJoins(cfg, s, now, uid, w, n, h, g);
    NobodyTakes(cfg, s, now, uid, w, n, h, r.name, g);
    StillHolds(cfg, s, now, uid, w, n, h, r, g);
  }

  ghost predicate KeyedThroughout(s: Store, ws: seq<Write>) {
    forall k :: 0 <= k <= |ws| ==> WellKeyed(CommitAll(s, ws[..k]))
  }

  lemma StaysKeyed(cfg: Config, env: Env, s: Store, now: Time, uid: UID, ws: seq<Write>)
    requires StoreInv(cfg, env, s, now) && Unused(s, uid) && AllEnabled(cfg, s, now, uid, ws)
    ensures KeyedThroughout(s, ws)
  {
    UnusedAbove(s, uid);
    forall k | 0 <= k <= |ws| ensures WellKeyed(CommitAll(s, ws[..k])) {
      WritesKeepInv(cfg, env, s, now, uid, ws, k);
    }
  }

  lemma {:induction false} WritesSteady(cfg: Config, a: Store, s: Store, now: Time, uid: UID, ws: seq<Write>, k: nat,
                                        n: string, h: string, r: RJob, g: string)
    requires KeyedThroughout(s, ws) && AllEnabled(cfg, s, now, uid, ws) && k <= |ws|
    requires (forall w :: w in ws ==> Serves(w, n, h)) && n != r.name && h != g && g != ""
    requires |r.fingerprint| >= 12 && r.name == RJobName(r.fingerprint) && r.uid < uid && Steady(a, s, r, g)
    ensures Steady(a, CommitAll(s, ws[..k]), r, g)
  {
    if k > 0 {
      var mid, w := CommitAll(s, ws[..k - 1]), ws[k - 1];
      WritesSteady(cfg, a, s, now, uid, ws, k - 1, n, h, r, g);
      assert Enabled(cfg, mid, now, uid, w) by {
        EnabledAt(cfg, s, now, uid, ws, k - 1);
      }
      assert w in ws && WellKeyed(mid);
      WriteSteady(cfg, a, mid, now, uid, w, n, h, r, g);
      CommitStep(s, ws, k - 1);
    } else {
      assert ws[..0] == [];
    }
  }

  /** The group another rjob writes is not the one `r` holds. */
  lemma OthersGroup(s: State, a: Store, name: string, nextGroup: string, r: RJob, g: string)
    requires |r.fingerprint| >= 12 && Steady(a, s.store, r, g) && g in s.groups && nextGroup !in s.groups
    requires name != r.name && name in s.store.rjobs && s.store.rjobs[name].phase == Pending
    ensures GroupIDFor(s.store.rjobs[name], nextGroup) != g
  {
    assert !Marks(s.store.rjobs[name], g);
  }

  /** Nothing but a reconcile of the primary itself disturbs its interrupted group, short of
      cancelling a member. */
  lemma StepSteady(cfg: Config, env: Env, a: Store, s: State, step: Step, r: RJob, g: string)
    requires Inv(cfg, env, s) && Legal(cfg, env, s, step) && !(step.Control? && step.name == r.name)
    requires |r.fingerprint| >= 12 && r.name == RJobName(r.fingerprint) && r.uid < s.nextUID
    requires g != "" && g in s.groups && Steady(a, s.store, r, g)
    ensures Steady(a, Next(cfg, s, step).store, r, g) && g in Next(cfg, s, step).groups
  {
    match step
    case Control(name, view, stop) =>
      if name in s.store.rjobs {
        ControlSteady(cfg, env, a, s, name, view, stop, r, g);
      }
    case Provide(_, _, _, _) =>
      ProvideSteady(cfg, env, a, s, step, r, g);
    case AgentSink(n, url) =>
      SinkSteady(cfg, a, s, n, url, r, g);
    case _ =>
  }

  lemma ProvideSteady(cfg: Config, env: Env, a: Store, s: State, step: Step, r: RJob, g: string)
    requires Inv(cfg, env, s) && Legal(cfg, env, s, step) && step.Provide?
    requires |r.fingerprint| >= 12 && r.name == RJobName(r.fingerprint) && r.uid < s.nextUID
    requires g != "" && Steady(a, s.store, r, g)
    ensures Steady(a, Next(cfg, s, step).store, r, g)
  {
    var ws, k := ProvideWrites(cfg, env, s, step);
    StaysKeyed(cfg, env, s.store, s.now, s.nextUID, ws);
    ProvidedSteady(cfg, a, s.store, s.now, s.nextUID, ws, k, r, g);
  }

  /** Nothing a provider writes serves a group. */
  lemma ProvidedSteady(cfg: Config, a: Store, s: Store, now: Time, uid: UID, ws: seq<Write>, k: nat, r: RJob, g: string)
    requires KeyedThroughout(s, ws) && AllEnabled(cfg, s, now, uid, ws) && k <= |ws| && forall w :: w in ws ==> ProviderMay(w)
    requires |r.fingerprint| >= 12 && r.name == RJobName(r.fingerprint) && r.uid < uid && g != "" && Steady(a, s, r, g)
    ensures Steady(a, CommitAll(s, ws[..k]), r, g)
  {
    WritesSteady(cfg, a, s, now, uid, ws, k, r.name + "-", "", r, g);
  }

  lemma SinkSteady(cfg: Config, a: Store, s: State, n: string, url: string, r: RJob, g: string)
    requires |r.fingerprint| >= 12 && n in s.store.rjobs && Steady(a, s.store, r, g)
    ensures Steady(a, Next(cfg, s, AgentSink(n, url)).store, r, g)
  {
    var t := Next(cfg, s, AgentSink(n, url)).store;
    assert Under(t, g) == Under(s.store, g);
    forall m | m in t.rjobs && m != r.name && Waiting(t.rjobs[m].phase) ensures !Marks(t.rjobs[m], g) {
      assert !Marks(s.store.rjobs[m], g);
    }
  }

  lemma ControlSteady(cfg: Config, env: Env, a: Store, s: State, name: string, view: View, stop: nat, r: RJob, g: string)
    requires Inv(cfg, env, s) && Legal(cfg, env, s, Control(name, view, stop)) && name != r.name && name in s.store.rjobs
    requires |r.fingerprint| >= 12 && r.name == RJobName(r.fingerprint) && r.uid < s.nextUID
    requires g != "" && g in s.groups && Steady(a, s.store, r, g)
    ensures Steady(a, Next(cfg, s, Control(name, view, stop)).store, r, g)
  {
    var ws := Plan(cfg, s.store, name, s.now, view);
    StepEnabled(cfg, env, s, Control(name, view, stop));
    StaysKeyed(cfg, env, s.store, s.now, s.nextUID, ws);
    PlanServes(cfg, s.store, name, s.now, view);
    var h := if s.store.rjobs[name].phase == Pending then GroupIDFor(s.store.rjobs[name], view.nextGroup) else "";
    if s.store.rjobs[name].phase == Pending {
      OthersGroup(s, a, name, view.nextGroup, r, g);
    }
    var k := |Prefix(ws, stop)|;
    assert Prefix(ws, stop) == ws[..k];
    WritesSteady(cfg, a, s.store, s.now, s.nextUID, ws, k, name, h, r, g);
  }

  predicate NeverReconciles(steps: seq<Step>, name: string) {
    forall i :: 0 <= i < |steps| ==> !(steps[i].Control? && steps[i].name == name)
  }

  lemma {:induction false} RunSteady(cfg: Config, env: Env, a: Store, s: State, steps: seq<Step>, r: RJob, g: string)
    requires Inv(cfg, env, s) && LegalRun(cfg, env, s, steps) && NeverReconciles(steps, r.name)
    requires |r.fingerprint| >= 12 && r.name == RJobName(r.fingerprint) && r.uid < s.nextUID
    requires g != "" && g in s.groups && Steady(a, s.store, r, g)
    ensures Steady(a, Run(cfg, s, steps).store, r, g)
    decreases |steps|
  {
    if steps != [] {
      StepKeepsInv(cfg, env, s, steps[0]);
      StepSteady(cfg, env, a, s, steps[0], r, g);
      StepAdvances(cfg, s, steps[0]);
      assert NeverReconciles(steps[1..], r.name) by {
        assert forall i :: 0 <= i < |steps| - 1 ==> steps[1..][i] == steps[i + 1];
      }
      RunSteady(cfg, env, a, Next(cfg, s, steps[0]), steps[1..], r, g);
    }
  }
}
