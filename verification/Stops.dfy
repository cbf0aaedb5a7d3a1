/** When an interrupted reconcile loses correlated findings: a group is recorded on its primary only after
    its members were suppressed. Exactly which stop points lose something, and what. */
module Stops {
  import opened Types
  import opened Seqs
  import opened Rules
  import opened Stores
  import opened Controller
  import opened Lifecycle
  import opened Plans
  import opened Runs
  import opened Capacity
  import opened Conservation
  import opened Drain
  import opened Groups
  import opened Recovery
  import opened Orphans

  // ---- Stopping before the group is recorded ----

  /** A write that suppresses somebody under the group. */
  predicate SuppressesUnder(w: Write, g: string) {
    (w.SuppressStatus? || w.SuppressLabel?) && w.group == g
  }

  ghost predicate AllSuppress(ws: seq<Write>, g: string) {
    forall w :: w in ws ==> SuppressesUnder(w, g)
  }

  lemma {:induction false} SuppressingWrites(ms: seq<RJob>, g: string)
    ensures AllSuppress(SuppressWrites(ms, g), g)
    ensures ms != [] ==> SuppressWrites(ms, g) != [] && SuppressWrites(ms, g)[0] == SuppressStatus(ms[0].name, g)
  {
    if ms != [] {
      SuppressingWrites(ms[..|ms| - 1], g);
      assert |ms| > 1 ==> ms[..|ms| - 1][0] == ms[0];
      assert |ms| == 1 ==> SuppressWrites(ms[..0], g) == [];
    }
  }

  /** Each such write moves a finding from those waiting to those under the group, or nothing. */
  lemma SuppressionMoves(cfg: Config, s: Store, w: Write, g: string, f: Finding)
    requires Enabled(cfg, s, 0, 0, w) && SuppressesUnder(w, g)
    ensures var t := Commit(s, w);
            && t.dispatched == s.dispatched && t.jobs == s.jobs
            && WaitingCount(t.rjobs, f) + |UnderWith(t, g, f)| == WaitingCount(s.rjobs, f) + |UnderWith(s, g, f)|
  {
    if w.SuppressStatus? {
      StatusMoves(s, w.name, g, f);
    } else {
      LabelMovesNothing(s, w.name, g, f);
    }
  }

  lemma StatusMoves(s: Store, n: string, g: string, f: Finding)
    requires n in s.rjobs && s.rjobs[n].phase == Pending
    ensures var t := Commit(s, SuppressStatus(n, g));
            WaitingCount(t.rjobs, f) + |UnderWith(t, g, f)| == WaitingCount(s.rjobs, f) + |UnderWith(s, g, f)|
  {
    WaitingPut(s.rjobs, n, s.rjobs[n].(phase := Suppressed, groupID := g), f);
    StatusJoins(s, n, g, f);
  }

  lemma StatusJoins(s: Store, n: string, g: string, f: Finding)
    requires n in s.rjobs && s.rjobs[n].phase == Pending
    ensures UnderWith(Commit(s, SuppressStatus(n, g)), g, f) == UnderWith(s, g, f) + if s.rjobs[n].finding == f then {n} else {}
    ensures n !in UnderWith(s, g, f)
  {
    var t := Commit(s, SuppressStatus(n, g));
    forall m | m != n ensures m in UnderWith(t, g, f) <==> m in UnderWith(s, g, f) {
    }
  }

  lemma LabelMovesNothing(s: Store, n: string, g: string, f: Finding)
    requires n in s.rjobs
    ensures var t := Commit(s, SuppressLabel(n, g));
            WaitingCount(t.rjobs, f) == WaitingCount(s.rjobs, f) && UnderWith(t, g, f) == UnderWith(s, g, f)
  {
    WaitingPut(s.rjobs, n, s.rjobs[n].(groupLabel := g, role := ROLE_CORRELATED), f);
  }

  /** An rjob that still waits was not touched, and whoever is under the group stays there. */
  lemma SuppressionSpares(cfg: Config, s: Store, w: Write, g: string, n: string)
    requires Enabled(cfg, s, 0, 0, w) && SuppressesUnder(w, g)
    ensures n in Commit(s, w).rjobs && Waiting(Commit(s, w).rjobs[n].phase) ==> n in s.rjobs && Commit(s, w).rjobs[n] == s.rjobs[n]
    ensures n in Under(s, g) ==> n in Under(Commit(s, w), g)
    ensures w == SuppressStatus(n, g) ==> n in Under(Commit(s, w), g)
  {
  }

  lemma {:induction false} PrefixMoves(cfg: Config, s: Store, ws: seq<Write>, g: string, k: nat, f: Finding)
    requires AllEnabled(cfg, s, 0, 0, ws) && AllSuppress(ws, g) && k <= |ws|
    ensures var t := CommitAll(s, ws[..k]);
            && t.dispatched == s.dispatched && t.jobs == s.jobs
            && WaitingCount(t.rjobs, f) + |UnderWith(t, g, f)| == WaitingCount(s.rjobs, f) + |UnderWith(s, g, f)|
  {
    if k > 0 {
      PrefixMoves(cfg, s, ws, g, k - 1, f);
      CommitStep(s, ws, k - 1);
      EnabledAt(cfg, s, 0, 0, ws, k - 1);
      assert ws[k - 1] in ws;
      SuppressionMoves(cfg, CommitAll(s, ws[..k - 1]), ws[k - 1], g, f);
    } else {
      assert ws[..0] == [];
    }
  }

  lemma {:induction false} PrefixSpares(cfg: Config, s: Store, ws: seq<Write>, g: string, k: nat, n: string)
    requires AllEnabled(cfg, s, 0, 0, ws) && AllSuppress(ws, g) && k <= |ws|
    ensures var t := CommitAll(s, ws[..k]);
            && (n in t.rjobs && Waiting(t.rjobs[n].phase) ==> n in s.rjobs && t.rjobs[n] == s.rjobs[n])
            && (k > 0 && ws[0] == SuppressStatus(n, g) ==> n in Under(t, g))
  {
    if k > 0 {
      PrefixSpares(cfg, s, ws, g, k - 1, n);
      CommitStep(s, ws, k - 1);
      EnabledAt(cfg, s, 0, 0, ws, k - 1);
      assert ws[k - 1] in ws;
      SuppressionSpares(cfg, CommitAll(s, ws[..k - 1]), ws[k - 1], g, n);
    } else {
      assert ws[..0] == [];
    }
  }

  /** A leading reconcile on a first attempt. */
  ghost predicate FirstAttempt(cfg: Config, s: State, name: string, view: View, g: Group) {
    && name in s.store.rjobs && Dispatchable(s.store, s.store.rjobs[name])
    && s.store.rjobs[name].groupID == "" && s.store.rjobs[name].groupLabel == ""
    && RouteOf(cfg, s.store, s.store.rjobs[name], s.now, view) == Lead(g)
  }

  function SuppressionOf(s: State, name: string, view: View, g: Group): seq<Write>
    requires name in s.store.rjobs
  {
    SuppressWrites(Members(s.store, s.store.rjobs[name], g, view), view.nextGroup)
  }

  /** The writes of a reconcile stopped early are the first of those that suppress. */
  lemma EarlyStopStore(cfg: Config, s: State, name: string, view: View, stop: nat, g: Group)
    requires WellKeyed(s.store) && ValidView(s.store, view) && view.nextGroup != "" && FirstAttempt(cfg, s, name, view, g)
    requires stop <= |SuppressionOf(s, name, view, g)|
    ensures var ws := SuppressionOf(s, name, view, g);
            && Next(cfg, s, Control(name, view, stop)).store == CommitAll(s.store, ws[..stop])
            && AllEnabled(cfg, s.store, 0, 0, ws) && AllSuppress(ws, view.nextGroup)
  {
    var r, ws := s.store.rjobs[name], SuppressionOf(s, name, view, g);
    OwnedIsJob(s.store, name, view);
    assert Prefix(Plan(cfg, s.store, name, s.now, view), stop) == ws[..stop];
    MembersSuppressible(s.store, r, g, view);
    SuppressEffect(cfg, s.store, 0, 0, Members(s.store, r, g, view), view.nextGroup);
    SuppressingWrites(Members(s.store, r, g, view), view.nextGroup);
  }

  lemma UnusedIsUnheld(s: State, g: string)
    requires GroupInv(s) && g != "" && g !in s.groups
    ensures Unheld(s.store, g) && Under(s.store, g) == {}
  {
    forall m | m in s.store.rjobs ensures !Marks(s.store.rjobs[m], g) {
      assert Marks(s.store.rjobs[m], g) ==> g in s.groups;
    }
  }

  /** Stopping before the group is recorded on the primary loses findings for good. Exactly those of the
      rjobs suppressed by then are neither waiting nor carried any more, and in no later state of any run
      does an rjob that may still dispatch hold their group, so that they are never collected. */
  lemma EarlyStopOrphans(cfg: Config, env: Env, s: State, name: string, view: View, stop: nat, g: Group, steps: seq<Step>, f: Finding)
    requires Inv(cfg, env, s) && GroupInv(s) && Legal(cfg, env, s, Control(name, view, stop)) && FirstAttempt(cfg, s, name, view, g)
    requires stop <= |SuppressionOf(s, name, view, g)|
    requires LegalRun(cfg, env, Next(cfg, s, Control(name, view, stop)), steps)
    ensures var t := Next(cfg, s, Control(name, view, stop));
            && Held(t.store, f) + |UnderWith(t.store, view.nextGroup, f)| == Held(s.store, f)
            && Unheld(Run(cfg, t, steps).store, view.nextGroup)
  {
    var t, gid, ws := Next(cfg, s, Control(name, view, stop)), view.nextGroup, SuppressionOf(s, name, view, g);
    EarlyStopStore(cfg, s, name, view, stop, g);
    UnusedIsUnheld(s, gid);
    assert UnderWith(s.store, gid, f) == {};
    PrefixMoves(cfg, s.store, ws, gid, stop, f);
    assert Unheld(t.store, gid) by {
      forall m | m in t.store.rjobs && Waiting(t.store.rjobs[m].phase) ensures !Marks(t.store.rjobs[m], gid) {
        PrefixSpares(cfg, s.store, ws, gid, stop, m);
      }
    }
    StepKeepsInv(cfg, env, s, Control(name, view, stop));
    RunKeepsUnheld(cfg, env, t, steps, gid);
  }

  lemma EarlyStopKeepsReady(cfg: Config, s: State, name: string, view: View, stop: nat, g: Group)
    requires WellKeyed(s.store) && ValidView(s.store, view) && view.nextGroup != "" && FirstAttempt(cfg, s, name, view, g)
    requires stop <= |SuppressionOf(s, name, view, g)| && Ready(cfg, s)
    ensures Ready(cfg, Next(cfg, s, Control(name, view, stop)))
  {
    var t, ws := Next(cfg, s, Control(name, view, stop)), SuppressionOf(s, name, view, g);
    EarlyStopStore(cfg, s, name, view, stop, g);
    PrefixMoves(cfg, s.store, ws, view.nextGroup, stop, s.store.rjobs[name].finding);
    forall n | n in Queue(t.store) ensures n in Queue(s.store) && Queue(t.store)[n] == Queue(s.store)[n] {
      PrefixSpares(cfg, s.store, ws, view.nextGroup, stop, n);
    }
  }

  /** However long everything then drains, Jobs end up carrying what waited before the interrupted
      reconcile less what it had suppressed. */
  lemma DrainWithoutOrphans(cfg: Config, env: Env, s: State, name: string, view: View, stop: nat, g: Group, rounds: seq<Round>, f: Finding)
    requires Inv(cfg, env, s) && GroupInv(s) && Legal(cfg, env, s, Control(name, view, stop)) && FirstAttempt(cfg, s, name, view, g)
    requires stop <= |SuppressionOf(s, name, view, g)| && Ready(cfg, s)
    requires var t := Next(cfg, s, Control(name, view, stop)); FullRounds(cfg, env, t, rounds) && |rounds| >= Backlog(t.store)
    ensures var t := Next(cfg, s, Control(name, view, stop));
            CarriedCount(RunRounds(cfg, t, rounds).store.dispatched, f) + |UnderWith(t.store, view.nextGroup, f)|
            == CarriedCount(s.store.dispatched, f) + WaitingCount(s.store.rjobs, f)
  {
    EarlyStopOrphans(cfg, env, s, name, view, stop, g, [], f);
    EarlyStopKeepsReady(cfg, s, name, view, stop, g);
    StepKeepsInv(cfg, env, s, Control(name, view, stop));
    Drains(cfg, env, Next(cfg, s, Control(name, view, stop)), rounds, f);
  }

  /** By contrast the primary holds the group as soon as it is recorded. */
  lemma RecordedGroupIsHeld(cfg: Config, s: State, name: string, view: View, stop: nat, g: Group)
    requires WellKeyed(s.store) && ValidView(s.store, view) && view.nextGroup != "" && Interrupted(cfg, s, name, view, stop, g)
    ensures !Unheld(Next(cfg, s, Control(name, view, stop)).store, GroupIDFor(s.store.rjobs[name], view.nextGroup))
  {
    InterruptedStrands(cfg, s, name, view, stop, g);
    var t := Next(cfg, s, Control(name, view, stop)).store;
    assert Marks(t.rjobs[name], GroupIDFor(s.store.rjobs[name], view.nextGroup));
  }

  // ---- Which stops lose something ----

  /** How often the finding is waiting, carried, or suppressed under the group while the group is held. */
  ghost function Kept(s: Store, g: string, f: Finding): nat {
    Held(s, f) + if Unheld(s, g) then 0 else |UnderWith(s, g, f)|
  }

  /** While the group is being recorded everything is accounted for. */
  lemma MidStopKeeps(cfg: Config, s: State, name: string, view: View, stop: nat, g: Group, f: Finding)
    requires WellKeyed(s.store) && GroupInv(s) && ValidView(s.store, view) && view.nextGroup != "" && view.nextGroup !in s.groups
    requires FirstAttempt(cfg, s, name, view, g)
    requires var k := |SuppressionOf(s, name, view, g)|; k < stop <= k + 2
    ensures Kept(Next(cfg, s, Control(name, view, stop)).store, view.nextGroup, f) == Held(s.store, f)
  {
    var r, gid, t := s.store.rjobs[name], view.nextGroup, Next(cfg, s, Control(name, view, stop)).store;
    var ms := Members(s.store, r, g, view);
    RecordedGroupIsHeld(cfg, s, name, view, stop, g);
    assert UnderWith(s.store, gid, f) == {} by {
      UnusedIsUnheld(s, gid);
    }
    assert t.dispatched == s.store.dispatched by {
      MidStopDispatchesNothing(cfg, s, name, view, stop, g);
    }
    InterruptedStrands(cfg, s, name, view, stop, g);
    MembersSuppressible(s.store, r, g, view);
    PrimaryNotMember(s.store, r, g, view);
    StrandedCount(s.store, t, ms, r, gid, f);
    StrandedWaits(cfg, s.store, t, ms, r, gid, f);
  }

  /** No Job comes of suppressing and marking. */
  lemma MidStopDispatchesNothing(cfg: Config, s: State, name: string, view: View, stop: nat, g: Group)
    requires WellKeyed(s.store) && ValidView(s.store, view) && Interrupted(cfg, s, name, view, stop, g)
    ensures Next(cfg, s, Control(name, view, stop)).store.dispatched == s.store.dispatched
  {
    var ms, gid := Members(s.store, s.store.rjobs[name], g, view), GroupIDFor(s.store.rjobs[name], view.nextGroup);
    InterruptedWrites(cfg, s, name, view, stop, g);
    SuppressKinds(ms, gid);
    JobsUntouched(s.store, Prefix(Plan(cfg, s.store, name, s.now, view), stop));
  }

  /** What waits in a stranded store is what waited before less the members. */
  lemma StrandedWaits(cfg: Config, s: Store, t: Store, ms: seq<RJob>, r: RJob, gid: string, f: Finding)
    requires Stranded(s, t, ms, r, gid) && SuppressibleIn(s, ms) && r.phase == Pending && s.rjobs[r.name] == r && !Named(ms, r.name)
    requires gid != ""
    ensures WaitingCount(t.rjobs, f) + multiset(Map(FindingOf(), ms))[f] == WaitingCount(s.rjobs, f)
  {
    var mid := CommitAll(s, SuppressWrites(ms, gid));
    SuppressTakes(cfg, s, ms, gid, f);
    assert SuppressedStore(s, mid, ms, gid) by {
      SuppressEffect(cfg, s, 0, 0, ms, gid);
    }
    StrandedBeyond(s, mid, t, ms, r, gid);
    WaitingPut(mid.rjobs, r.name, t.rjobs[r.name], f);
  }

  lemma StrandedBeyond(s: Store, mid: Store, t: Store, ms: seq<RJob>, r: RJob, gid: string)
    requires SuppressedStore(s, mid, ms, gid) && Stranded(s, t, ms, r, gid) && s.rjobs[r.name] == r && !Named(ms, r.name)
    ensures r.name in mid.rjobs && mid.rjobs[r.name] == r && t.rjobs == mid.rjobs[r.name := t.rjobs[r.name]]
  {
  }

  /** A Job created but not yet noted on the primary counts its findings once more. */
  lemma LateStopKeeps(cfg: Config, s: State, name: string, view: View, stop: nat, g: Group, f: Finding)
    requires WellKeyed(s.store) && ValidView(s.store, view) && view.nextGroup != "" && FirstAttempt(cfg, s, name, view, g)
    requires stop > |SuppressionOf(s, name, view, g)| + 2 && !Quashed(cfg, view.injected)
    ensures Held(Next(cfg, s, Control(name, view, stop)).store, f) >= Held(s.store, f)
  {
    var r, plan := s.store.rjobs[name], Plan(cfg, s.store, name, s.now, view);
    assert plan == LeadWrites(cfg, s.store, r, g, s.now, view) by {
      OwnedIsJob(s.store, name, view);
    }
    LeadConserves(cfg, s.store, r, s.now, view, f);
    LeadPlanEnds(cfg, s.store, r, g, s.now, view);
    WithoutTheMark(s.store, plan, stop, f);
  }

  lemma WithoutTheMark(s: Store, ws: seq<Write>, stop: nat, f: Finding)
    requires ws != [] && ws[|ws| - 1].MarkDispatched? && stop >= |ws| - 1
    ensures Held(CommitAll(s, Prefix(ws, stop)), f) >= Held(CommitAll(s, ws), f)
  {
    if stop < |ws| {
      assert Prefix(ws, stop) == ws[..|ws| - 1];
      MarkingTakes(CommitAll(s, ws[..|ws| - 1]), ws[|ws| - 1], f);
    } else {
      assert Prefix(ws, stop) == ws;
    }
  }

  lemma LeadPlanEnds(cfg: Config, s: Store, r: RJob, g: Group, now: Time, view: View)
    requires Dispatchable(s, r) && !Quashed(cfg, view.injected)
    ensures var ws, gid := LeadWrites(cfg, s, r, g, now, view), GroupIDFor(r, view.nextGroup);
            |ws| == |SuppressWrites(Members(s, r, g, view), gid)| + 4 && ws[|ws| - 1].MarkDispatched?
  {
  }

  lemma MarkingTakes(s: Store, w: Write, f: Finding)
    requires w.MarkDispatched?
    ensures Held(Commit(s, w), f) <= Held(s, f)
  {
    if w.name in s.rjobs {
      WaitingPut(s.rjobs, w.name, Patch(s.rjobs[w.name], w), f);
    }
  }

  /** An early stop that suppressed anybody loses something. */
  lemma EarlyStopLoses(cfg: Config, env: Env, s: State, name: string, view: View, stop: nat, g: Group) returns (f: Finding)
    requires Inv(cfg, env, s) && GroupInv(s) && Legal(cfg, env, s, Control(name, view, stop)) && FirstAttempt(cfg, s, name, view, g)
    requires 0 < stop <= |SuppressionOf(s, name, view, g)|
    ensures Kept(Next(cfg, s, Control(name, view, stop)).store, view.nextGroup, f) < Held(s.store, f)
  {
    var t, gid := Next(cfg, s, Control(name, view, stop)).store, view.nextGroup;
    var n := EarlyStopSuppresses(cfg, s, name, view, stop, g);
    f := t.rjobs[n].finding;
    EarlyStopOrphans(cfg, env, s, name, view, stop, g, [], f);
    assert n in UnderWith(t, gid, f);
  }

  lemma EarlyStopSuppresses(cfg: Config, s: State, name: string, view: View, stop: nat, g: Group) returns (n: string)
    requires WellKeyed(s.store) && ValidView(s.store, view) && view.nextGroup != "" && FirstAttempt(cfg, s, name, view, g)
    requires 0 < stop <= |SuppressionOf(s, name, view, g)|
    ensures n in Under(Next(cfg, s, Control(name, view, stop)).store, view.nextGroup)
  {
    var ms := Members(s.store, s.store.rjobs[name], g, view);
    n := ms[0].name;
    EarlyStopStore(cfg, s, name, view, stop, g);
    SuppressingWrites(ms, view.nextGroup);
    PrefixSpares(cfg, s.store, SuppressionOf(s, name, view, g), view.nextGroup, stop, n);
  }

  /** Which stops lose a finding. A first attempt to lead a group, stopped anywhere, keeps every finding
      waiting, carried, or suppressed under a group whose primary will collect it, if and only if it stops
      before it suppresses anybody, or after the group is recorded and without reaching the point where the
      primary is itself suppressed as an injection. */
  lemma StopKeepsAllIff(cfg: Config, env: Env, s: State, name: string, view: View, stop: nat, g: Group)
    requires Inv(cfg, env, s) && GroupInv(s) && Legal(cfg, env, s, Control(name, view, stop)) && FirstAttempt(cfg, s, name, view, g)
    ensures var k := |SuppressionOf(s, name, view, g)|;
            (forall f :: Kept(Next(cfg, s, Control(name, view, stop)).store, view.nextGroup, f) >= Held(s.store, f)) <==>
            stop == 0 || (k < stop && !(k + 2 < stop && Quashed(cfg, view.injected)))
  {
    var t, k := Next(cfg, s, Control(name, view, stop)).store, |SuppressionOf(s, name, view, g)|;
    if stop == 0 {
      forall f ensures Kept(t, view.nextGroup, f) >= Held(s.store, f) {
        NoStepAtAll(cfg, s, name, view, f);
      }
    } else if stop <= k {
      var f := EarlyStopLoses(cfg, env, s, name, view, stop, g);
    } else if stop <= k + 2 {
      forall f ensures Kept(t, view.nextGroup, f) >= Held(s.store, f) {
        MidStopKeeps(cfg, s, name, view, stop, g, f);
      }
    } else if Quashed(cfg, view.injected) {
      InjectionLoses(cfg, env, s, name, view, stop, g);
    } else {
      forall f ensures Kept(t, view.nextGroup, f) >= Held(s.store, f) {
        LateStopKeeps(cfg, s, name, view, stop, g, f);
      }
    }
  }

  lemma NoStepAtAll(cfg: Config, s: State, name: string, view: View, f: Finding)
    ensures Kept(Next(cfg, s, Control(name, view, 0)).store, view.nextGroup, f) >= Held(s.store, f)
  {
    var plan := Plan(cfg, s.store, name, s.now, view);
    assert Prefix(plan, 0) == [];
  }

  lemma InjectionLoses(cfg: Config, env: Env, s: State, name: string, view: View, stop: nat, g: Group)
    requires Inv(cfg, env, s) && GroupInv(s) && Legal(cfg, env, s, Control(name, view, stop)) && FirstAttempt(cfg, s, name, view, g)
    requires stop > |SuppressionOf(s, name, view, g)| + 2 && Quashed(cfg, view.injected)
    ensures Kept(Next(cfg, s, Control(name, view, stop)).store, view.nextGroup, s.store.rjobs[name].finding) < Held(s.store, s.store.rjobs[name].finding)
  {
    var r := s.store.rjobs[name];
    assert |Plan(cfg, s.store, name, s.now, view)| == |SuppressionOf(s, name, view, g)| + 3 by {
      OwnedIsJob(s.store, name, view);
    }
    InjectionLosesGroup(cfg, env, s, name, view, stop, g, [], r.finding);
  }
}
