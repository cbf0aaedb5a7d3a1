/** A dispatch that stops between recording its group and creating its Job is made good later: the
    recovery path dispatches the same findings under the same group, whatever ran in between. */
module Recovery {
  import opened Types
  import opened Seqs
  import opened Rules
  import opened Stores
  import opened Controller
  import opened Lifecycle
  import opened Evolution
  import opened Plans
  import opened Runs
  import opened Guarantees
  import opened Conservation
  import opened Groups

  /** The rjobs suppressed under a group whose finding is `f`. */
  function UnderWith(s: Store, g: string, f: Finding): set<string> {
    set n | n in Under(s, g) && s.rjobs[n].finding == f
  }

  // ---- Counting findings by name ----

  function NamesWith(ms: seq<RJob>, f: Finding): set<string> {
    set m | m in ms && m.finding == f :: m.name
  }

  lemma NamesFront(ms: seq<RJob>, f: Finding)
    requires ms != []
    ensures var last := ms[|ms| - 1];
            NamesWith(ms, f) == NamesWith(ms[..|ms| - 1], f) + if last.finding == f then {last.name} else {}
  {
    var front, last := ms[..|ms| - 1], ms[|ms| - 1];
    assert forall m :: m in ms <==> m in front || m == last;
  }

  lemma LastNameNew(s: Store, ms: seq<RJob>, f: Finding)
    requires ms != [] && Distinct(ms) && forall m :: m in ms ==> m.name in s.rjobs && s.rjobs[m.name] == m
    ensures Distinct(ms[..|ms| - 1]) && ms[|ms| - 1].name !in NamesWith(ms[..|ms| - 1], f)
    ensures forall m :: m in ms[..|ms| - 1] ==> m.name in s.rjobs && s.rjobs[m.name] == m
  {
    DistinctFront(ms);
    assert forall m :: m in ms[..|ms| - 1] ==> m in ms;
    assert ms[|ms| - 1] in ms;
  }

  /** Of distinct stored rjobs, as many have the finding as it has occurrences among theirs. */
  lemma {:induction false} CountByName(s: Store, ms: seq<RJob>, f: Finding)
    requires Distinct(ms) && forall m :: m in ms ==> m.name in s.rjobs && s.rjobs[m.name] == m
    ensures multiset(Map(FindingOf(), ms))[f] == |NamesWith(ms, f)|
  {
    if ms == [] {
      assert Map(FindingOf(), ms) == [];
    } else {
      LastNameNew(s, ms, f);
      CountByName(s, ms[..|ms| - 1], f);
      MapFront(ms, f);
      NamesFront(ms, f);
    }
  }

  /** What the recovery path collects is everything suppressed under the group. */
  lemma RecoveredIsUnder(s: Store, r: RJob, view: View, f: Finding)
    requires WellKeyed(s) && ValidView(s, view) && r.name in s.rjobs && s.rjobs[r.name] == r && r.phase == Pending
    ensures multiset(Recovered(s, r, view))[f] == |UnderWith(s, r.groupID, f)|
  {
    var ms := Filter(SuppressedUnder(r), Listing(view.order, s.rjobs));
    FilteredListing(SuppressedUnder(r), view.order, s);
    CountByName(s, ms, f);
    assert NamesWith(ms, f) == UnderWith(s, r.groupID, f) by {
      forall n | n in UnderWith(s, r.groupID, f) ensures n in NamesWith(ms, f) {
        assert s.rjobs[n] in ms;
      }
    }
  }

  // ---- The interrupted reconcile ----

  /** The reconcile of `name` leads the group `g` but stops after the group was recorded on the
      primary and before the Job was created. */
  ghost predicate Interrupted(cfg: Config, s: State, name: string, view: View, stop: nat, g: Group) {
    && name in s.store.rjobs && s.store.rjobs[name].phase == Pending
    && |s.store.rjobs[name].fingerprint| >= 12 && JobName(s.store.rjobs[name].fingerprint) !in s.store.jobs
    && RouteOf(cfg, s.store, s.store.rjobs[name], s.now, view) == Lead(g)
    && var k := |SuppressWrites(Members(s.store, s.store.rjobs[name], g, view), GroupIDFor(s.store.rjobs[name], view.nextGroup))|;
       k + 1 <= stop <= k + 2
  }

  /** Members suppressed under the group, the primary still Pending and holding it. */
  ghost predicate Stranded(s: Store, t: Store, ms: seq<RJob>, r: RJob, gid: string) {
    && t.jobs == s.jobs && t.rjobs.Keys == s.rjobs.Keys
    && r.name in s.rjobs && t.rjobs[r.name] == r.(groupID := gid, groupLabel := t.rjobs[r.name].groupLabel, role := t.rjobs[r.name].role)
    && forall n :: n in s.rjobs && n != r.name ==> t.rjobs[n] == if Named(ms, n) then Quieted(s.rjobs[n], gid) else s.rjobs[n]
  }

  /** One or both of the patches on the primary. */
  lemma MarkPart(s: Store, r: RJob, gid: string, k: nat)
    requires r.name in s.rjobs && s.rjobs[r.name] == r && 1 <= k <= 2
    ensures var t := CommitAll(s, [SetGroup(r.name, gid), LabelPrimary(r.name, gid)][..k]);
            && t.jobs == s.jobs && r.name in t.rjobs
            && t.rjobs[r.name] == r.(groupID := gid, groupLabel := t.rjobs[r.name].groupLabel, role := t.rjobs[r.name].role)
            && t.rjobs.Keys == s.rjobs.Keys && forall n :: n in s.rjobs && n != r.name ==> t.rjobs[n] == s.rjobs[n]
  {
    var a, b := SetGroup(r.name, gid), LabelPrimary(r.name, gid);
    CommitOne(s, a);
    assert [a, b][..1] == [a] && [a, b][..2] == [a, b];
    assert CommitAll(s, [a, b]) == Commit(CommitAll(s, [a]), b) by {
      assert [a, b][..1] == [a];
    }
  }

  /** The writes that were sent. */
  lemma InterruptedWrites(cfg: Config, s: State, name: string, view: View, stop: nat, g: Group)
    requires WellKeyed(s.store) && ValidView(s.store, view) && Interrupted(cfg, s, name, view, stop, g)
    ensures var r := s.store.rjobs[name];
            var gid := GroupIDFor(r, view.nextGroup);
            var a := SuppressWrites(Members(s.store, r, g, view), gid);
            Prefix(Plan(cfg, s.store, name, s.now, view), stop) == a + [SetGroup(name, gid), LabelPrimary(name, gid)][..stop - |a|]
  {
    var r := s.store.rjobs[name];
    var gid := GroupIDFor(r, view.nextGroup);
    var a, b := SuppressWrites(Members(s.store, r, g, view), gid), [SetGroup(name, gid), LabelPrimary(name, gid)];
    OwnedIsJob(s.store, name, view);
    assert Plan(cfg, s.store, name, s.now, view) ==
           a + b + DispatchWrites(cfg, s.store, r, g.findings, s.now, view.injected);
    assert b[..2] == b;
  }

  lemma InterruptedStrands(cfg: Config, s: State, name: string, view: View, stop: nat, g: Group)
    requires WellKeyed(s.store) && ValidView(s.store, view) && view.nextGroup != "" && Interrupted(cfg, s, name, view, stop, g)
    ensures var r := s.store.rjobs[name];
            Stranded(s.store, Next(cfg, s, Control(name, view, stop)).store, Members(s.store, r, g, view), r, GroupIDFor(r, view.nextGroup))
  {
    var r := s.store.rjobs[name];
    var gid, ms := GroupIDFor(r, view.nextGroup), Members(s.store, r, g, view);
    var a, b := SuppressWrites(ms, gid), [SetGroup(name, gid), LabelPrimary(name, gid)];
    var mid := CommitAll(s.store, a);
    assert Next(cfg, s, Control(name, view, stop)).store == CommitAll(mid, b[..stop - |a|]) by {
      InterruptedWrites(cfg, s, name, view, stop, g);
      CommitConcat(s.store, a, b[..stop - |a|]);
    }
    assert SuppressedStore(s.store, mid, ms, gid) by {
      MembersSuppressible(s.store, r, g, view);
      SuppressEffect(cfg, s.store, 0, 0, ms, gid);
    }
    assert !Named(ms, r.name) by {
      PrimaryNotMember(s.store, r, g, view);
    }
    MarkStrands(s.store, mid, ms, r, gid, stop - |a|);
  }

  lemma MarkStrands(s: Store, mid: Store, ms: seq<RJob>, r: RJob, gid: string, k: nat)
    requires SuppressedStore(s, mid, ms, gid) && r.name in s.rjobs && s.rjobs[r.name] == r && !Named(ms, r.name) && 1 <= k <= 2
    ensures Stranded(s, CommitAll(mid, [SetGroup(r.name, gid), LabelPrimary(r.name, gid)][..k]), ms, r, gid)
  {
    MarkPart(mid, r, gid, k);
  }

  lemma StrandedNames(s: Store, t: Store, ms: seq<RJob>, r: RJob, gid: string, f: Finding, n: string)
    requires Stranded(s, t, ms, r, gid) && SuppressibleIn(s, ms) && r.phase == Pending && s.rjobs[r.name] == r && !Named(ms, r.name)
    ensures n in UnderWith(t, gid, f) <==> n in UnderWith(s, gid, f) || n in NamesWith(ms, f)
    ensures !(n in UnderWith(s, gid, f) && n in NamesWith(ms, f))
  {
    if n in s.rjobs && Named(ms, n) {
      assert s.rjobs[n] in ms;
    }
  }

  /** The group then holds its earlier members and the newly suppressed ones. */
  lemma StrandedCount(s: Store, t: Store, ms: seq<RJob>, r: RJob, gid: string, f: Finding)
    requires Stranded(s, t, ms, r, gid) && SuppressibleIn(s, ms) && r.phase == Pending && s.rjobs[r.name] == r && !Named(ms, r.name)
    ensures |UnderWith(t, gid, f)| == |UnderWith(s, gid, f)| + multiset(Map(FindingOf(), ms))[f]
  {
    CountByName(s, ms, f);
    var x, y, z := UnderWith(t, gid, f), UnderWith(s, gid, f), NamesWith(ms, f);
    forall n ensures (n in x <==> n in y || n in z) && !(n in y && n in z) {
      StrandedNames(s, t, ms, r, gid, f, n);
    }
    assert x == y + z && y !! z;
  }

  // ---- Afterwards ----

  /** Everyone suppressed under the group is still there: the same incarnation, not cancelled. */
  ghost predicate NoneCancelled(t: Store, u: Store, gid: string) {
    forall n :: n in Under(t, gid) ==> n in u.rjobs && u.rjobs[n].uid == t.rjobs[n].uid && u.rjobs[n].phase != Cancelled
  }

  lemma MembersRemain(cfg: Config, env: Env, t: State, steps: seq<Step>, gid: string, f: Finding)
    requires Inv(cfg, env, t) && LegalRun(cfg, env, t, steps)
    requires var u := Run(cfg, t, steps); NoneCancelled(t.store, u.store, gid) && Under(u.store, gid) <= Under(t.store, gid)
    ensures UnderWith(Run(cfg, t, steps).store, gid, f) == UnderWith(t.store, gid, f)
  {
    var u := Run(cfg, t, steps);
    forall n | n in Under(t.store, gid)
      ensures n in Under(u.store, gid) && u.store.rjobs[n].finding == t.store.rjobs[n].finding
    {
      StoredFate(cfg, env, t, n);
      RunFate(cfg, env, t, steps, t.now, t.store.rjobs[n]);
    }
  }

  /** The recovery path: one Job, for the primary and for everyone suppressed under its group. */
  lemma RecoveryDispatches(cfg: Config, s: Store, r: RJob, now: Time, view: View, f: Finding)
    requires WellKeyed(s) && ValidView(s, view) && r.name in s.rjobs && s.rjobs[r.name] == r && r.phase == Pending
    requires JobName(r.fingerprint) !in s.jobs && RouteOf(cfg, s, r, now, view).Recover?
    requires !Limited(cfg, s, now, view) && !(view.injected && cfg.suppressInjection)
    ensures var t := CommitAll(s, Plan(cfg, s, r.name, now, view));
            var job := BuildJob(r, Recovered(s, r, view), now);
            && t.dispatched == s.dispatched + [job] && multiset(job.correlated)[f] == |UnderWith(s, r.groupID, f)|
            && r.name in t.rjobs && t.rjobs[r.name].phase == Dispatched && t.rjobs[r.name].groupID == r.groupID
  {
    OwnedIsJob(s, r.name, view);
    RecoveredIsUnder(s, r, view, f);
    var a := if r.groupLabel == "" then [LabelPrimary(r.name, r.groupID)] else [];
    var d := DispatchWrites(cfg, s, r, Recovered(s, r, view), now, view.injected);
    assert Plan(cfg, s, r.name, now, view) == a + d;
    CommitConcat(s, a, d);
    if r.groupLabel == "" {
      OneEnabled(cfg, s, now, 0, LabelPrimary(r.name, r.groupID));
    } else {
      assert CommitAll(s, a) == s;
    }
    DispatchEnabled(cfg, s, CommitAll(s, a), now, 0, r, Recovered(s, r, view), view.injected);
  }

  /** The interrupted primary, still waiting after any run that did not reconcile it, is as it was
      left: same group, no Job, and the same findings suppressed under it. */
  lemma GroupSurvives(cfg: Config, env: Env, s: State, name: string, view: View, stop: nat, g: Group, steps: seq<Step>, f: Finding)
    requires Inv(cfg, env, s) && GroupInv(s) && Legal(cfg, env, s, Control(name, view, stop)) && Interrupted(cfg, s, name, view, stop, g)
    requires var t := Next(cfg, s, Control(name, view, stop));
             && LegalRun(cfg, env, t, steps) && NeverReconciles(steps, name)
             && NoneCancelled(t.store, Run(cfg, t, steps).store, GroupIDFor(s.store.rjobs[name], view.nextGroup))
    ensures var r, t := s.store.rjobs[name], Next(cfg, s, Control(name, view, stop));
            var gid, u := GroupIDFor(r, view.nextGroup), Run(cfg, t, steps);
            && Inv(cfg, env, u)
            && |UnderWith(u.store, gid, f)| == |UnderWith(s.store, gid, f)| + multiset(g.findings)[f]
            && Steady(t.store, u.store, r, gid)
  {
    var r, t := s.store.rjobs[name], Next(cfg, s, Control(name, view, stop));
    var gid, ms := GroupIDFor(r, view.nextGroup), Members(s.store, r, g, view);
    InterruptedStrands(cfg, s, name, view, stop, g);
    assert |UnderWith(t.store, gid, f)| == |UnderWith(s.store, gid, f)| + multiset(g.findings)[f] by {
      LeadFindings(cfg, s.store, r, s.now, view);
      MembersSuppressible(s.store, r, g, view);
      PrimaryNotMember(s.store, r, g, view);
      StrandedCount(s.store, t.store, ms, r, gid, f);
    }
    StepKeepsInv(cfg, env, s, Control(name, view, stop));
    assert Steady(t.store, t.store, r, gid) && gid in t.groups && gid != "" by {
      StepKeepsGroups(cfg, env, s, Control(name, view, stop));
      MayTakeOwn(s, name, view.nextGroup);
      assert Marks(t.store.rjobs[name], gid);
    }
    assert r.uid < t.nextUID;
    RunSteady(cfg, env, t.store, t, steps, r, gid);
    RunKeepsInv(cfg, env, t, steps);
    MembersRemain(cfg, env, t, steps, gid, f);
  }

  /** Recovery equals the interrupted dispatch. A reconcile leads a group, stops after recording it
      and before creating the Job; anything may run meanwhile, except another reconcile of the same
      rjob; no member is cancelled. When the primary, still Pending, is reconciled and matches no
      rule, its Job is created under the same group and carries exactly the findings the
      interrupted one would have carried, on top of those an even earlier attempt had suppressed. */
  lemma RecoveryEqualsDispatch(cfg: Config, env: Env, s: State, name: string, view: View, stop: nat, g: Group,
                               steps: seq<Step>, view': View, f: Finding)
    requires Inv(cfg, env, s) && GroupInv(s) && Legal(cfg, env, s, Control(name, view, stop)) && Interrupted(cfg, s, name, view, stop, g)
    requires var t := Next(cfg, s, Control(name, view, stop));
             && LegalRun(cfg, env, t, steps) && NeverReconciles(steps, name)
             && NoneCancelled(t.store, Run(cfg, t, steps).store, GroupIDFor(s.store.rjobs[name], view.nextGroup))
    requires var u := Run(cfg, Next(cfg, s, Control(name, view, stop)), steps);
             && Present(u.store, s.store.rjobs[name]) && u.store.rjobs[name].phase == Pending
             && ValidView(u.store, view')
             && RouteOf(cfg, u.store, u.store.rjobs[name], u.now, view').Recover?
             && !Limited(cfg, u.store, u.now, view') && !(view'.injected && cfg.suppressInjection)
    ensures var r, u := s.store.rjobs[name], Run(cfg, Next(cfg, s, Control(name, view, stop)), steps);
            var gid, v := GroupIDFor(r, view.nextGroup), CommitAll(u.store, Plan(cfg, u.store, name, u.now, view'));
            && |v.dispatched| == |u.store.dispatched| + 1 && v.dispatched[..|u.store.dispatched|] == u.store.dispatched
            && v.dispatched[|u.store.dispatched|].ownerUID == r.uid && v.dispatched[|u.store.dispatched|].own == r.finding
            && multiset(v.dispatched[|u.store.dispatched|].correlated)[f] == multiset(g.findings)[f] + |UnderWith(s.store, gid, f)|
            && name in v.rjobs && v.rjobs[name].phase == Dispatched && v.rjobs[name].groupID == gid
  {
    GroupSurvives(cfg, env, s, name, view, stop, g, steps, f);
    var r, t := s.store.rjobs[name], Next(cfg, s, Control(name, view, stop));
    var u := Run(cfg, t, steps);
    var r' := u.store.rjobs[name];
    assert SameIdentity(r, r') by {
      StoredFate(cfg, env, s, name);
      assert LegalRun(cfg, env, s, [Control(name, view, stop)] + steps) by {
        assert ([Control(name, view, stop)] + steps)[1..] == steps;
      }
      RunFate(cfg, env, s, [Control(name, view, stop)] + steps, s.now, r);
      assert ([Control(name, view, stop)] + steps)[1..] == steps;
    }
    RecoveryDispatches(cfg, u.store, r', u.now, view', f);
  }

  /** With a group identifier never used before, which is what a first attempt draws, nothing was
      suppressed under it earlier, so the two dispatches carry exactly the same findings. */
  lemma FirstAttemptIsFresh(s: State, name: string, nextGroup: string)
    requires GroupInv(s) && name in s.store.rjobs && nextGroup != "" && nextGroup !in s.groups
    requires s.store.rjobs[name].groupID == "" && s.store.rjobs[name].groupLabel == ""
    ensures Under(s.store, GroupIDFor(s.store.rjobs[name], nextGroup)) == {}
  {
    forall n | n in s.store.rjobs ensures s.store.rjobs[n].groupID != nextGroup {
      assert Marks(s.store.rjobs[n], s.store.rjobs[n].groupID);
    }
  }
}
