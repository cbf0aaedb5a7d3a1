/** The account of every finding over every run, with both kinds of controller at work and each reconcile
    stopped anywhere. */
module Balances {
  import opened Types
  import opened Seqs
  import opened Rules
  import opened Stores
  import opened Controller
  import opened BoundedMaps
  import opened Provider
  import opened Lifecycle
  import opened Plans
  import opened Runs
  import opened Admissions
  import opened Conservation
  import opened Recovery
  import opened Ledger

  function CountIn(rs: seq<RJob>, f: Finding): nat {
    multiset(Map(FindingOf(), rs))[f]
  }

  // ---- Suppression, stopped ----

  lemma {:induction false} SuppressLength(ms: seq<RJob>, gid: string)
    ensures |SuppressWrites(ms, gid)| == 2 * |ms|
  {
    if ms != [] {
      SuppressLength(ms[..|ms| - 1], gid);
    }
  }

  /** The first `stop` suppressing writes take out the findings of those whose first write was sent. */
  lemma {:induction false} SuppressPart(cfg: Config, s: Store, ms: seq<RJob>, gid: string, stop: nat, f: Finding)
    requires SuppressibleIn(s, ms) && gid != "" && stop <= 2 * |ms|
    ensures |SuppressWrites(ms, gid)| == 2 * |ms|
    ensures WaitingCount(CommitAll(s, SuppressWrites(ms, gid)[..stop]).rjobs, f) + CountIn(ms[..(stop + 1) / 2], f)
            == WaitingCount(s.rjobs, f)
  {
    SuppressLength(ms, gid);
    if stop == 2 * |ms| {
      assert SuppressWrites(ms, gid)[..stop] == SuppressWrites(ms, gid) && ms[..(stop + 1) / 2] == ms;
      SuppressTakes(cfg, s, ms, gid, f);
    } else {
      var front, last := ms[..|ms| - 1], ms[|ms| - 1];
      SuppressLength(front, gid);
      assert SuppressibleIn(s, front) by {
        LastUntouched(s, ms);
      }
      if stop <= 2 * |front| {
        assert SuppressWrites(ms, gid)[..stop] == SuppressWrites(front, gid)[..stop];
        assert ms[..(stop + 1) / 2] == front[..(stop + 1) / 2];
        SuppressPart(cfg, s, front, gid, stop, f);
      } else {
        assert SuppressWrites(ms, gid)[..stop] == SuppressWrites(front, gid) + [SuppressStatus(last.name, gid)];
        assert ms[..(stop + 1) / 2] == ms;
        SuppressAlmost(cfg, s, ms, gid, f);
      }
    }
  }

  /** All but the last label written. */
  lemma SuppressAlmost(cfg: Config, s: Store, ms: seq<RJob>, gid: string, f: Finding)
    requires SuppressibleIn(s, ms) && gid != "" && ms != []
    ensures var front, last := ms[..|ms| - 1], ms[|ms| - 1];
            WaitingCount(CommitAll(s, SuppressWrites(front, gid) + [SuppressStatus(last.name, gid)]).rjobs, f) + CountIn(ms, f)
            == WaitingCount(s.rjobs, f)
  {
    var front, last := ms[..|ms| - 1], ms[|ms| - 1];
    SuppressLast(cfg, s, ms, gid);
    CommitConcat(s, SuppressWrites(front, gid), [SuppressStatus(last.name, gid)]);
    SuppressTakes(cfg, s, front, gid, f);
    StatusTakes(CommitAll(s, SuppressWrites(front, gid)), last, gid, f);
    MapFront(ms, f);
  }

  lemma StatusTakes(s: Store, r: RJob, gid: string, f: Finding)
    requires r.name in s.rjobs && s.rjobs[r.name] == r && r.phase == Pending
    ensures WaitingCount(CommitAll(s, [SuppressStatus(r.name, gid)]).rjobs, f) + (if r.finding == f then 1 else 0) == WaitingCount(s.rjobs, f)
  {
    CommitOne(s, SuppressStatus(r.name, gid));
    WaitingPut(s.rjobs, r.name, r.(phase := Suppressed, groupID := gid), f);
  }

  lemma {:induction false} NoJobNoDispatch(s: Store, ws: seq<Write>)
    requires forall w :: w in ws ==> !w.CreateJob?
    ensures CommitAll(s, ws).dispatched == s.dispatched
  {
    if ws != [] {
      NoJobNoDispatch(s, ws[..|ws| - 1]);
      assert ws[|ws| - 1] in ws;
    }
  }

  lemma {:induction false} SuppressionsOnly(ms: seq<RJob>, gid: string)
    ensures forall w :: w in SuppressWrites(ms, gid) ==> !w.CreateJob?
  {
    if ms != [] {
      SuppressionsOnly(ms[..|ms| - 1], gid);
    }
  }

  /** Recording the group changes nothing. */
  lemma MarksConserve(s: Store, n: string, gid: string, k: nat, f: Finding)
    requires n in s.rjobs && k <= 2
    ensures Held(CommitAll(s, [SetGroup(n, gid), LabelPrimary(n, gid)][..k]), f) == Held(s, f)
  {
    var a, b := SetGroup(n, gid), LabelPrimary(n, gid);
    assert [a, b][..0] == [] && [a, b][..1] == [a] && [a, b][..2] == [a] + [b];
    PatchConserves(s, a, f);
    var mid := CommitAll(s, [a]);
    PatchConserves(mid, b, f);
    CommitConcat(s, [a], [b]);
  }

  lemma PatchConserves(s: Store, w: Write, f: Finding)
    requires (w.SetGroup? || w.LabelPrimary?) && w.name in s.rjobs
    ensures var t := CommitAll(s, [w]); Held(t, f) == Held(s, f) && w.name in t.rjobs && t.jobs == s.jobs
  {
    CommitOne(s, w);
    OneWriteConserves(s, w, f);
  }

  /** A Job just created counts its owner's finding and those it carries. */
  lemma JobCounts(s: Store, job: Job, f: Finding)
    requires job.name !in s.jobs
    ensures Held(CommitAll(s, [CreateJob(job)]), f) == Held(s, f) + (if job.own == f then 1 else 0) + multiset(job.correlated)[f]
  {
    CommitOne(s, CreateJob(job));
    CarriedAppend(s.dispatched, job, f);
  }

  // ---- A reconcile, stopped ----

  /** The writes before the Job is created when an interrupted group is recovered. */
  function Repairs(r: RJob): nat {
    if r.groupLabel == "" then 1 else 0
  }

  /** What a leading reconcile stopped after `stop` writes takes off, and what it puts on. */
  function LeadOut(ms: seq<RJob>, stop: nat, f: Finding): nat {
    if stop <= 2 * |ms| then CountIn(ms[..(stop + 1) / 2], f) else if stop <= 2 * |ms| + 2 then CountIn(ms, f) else 0
  }

  function LeadIn(r: RJob, ms: seq<RJob>, stop: nat, f: Finding): nat {
    if stop > 2 * |ms| + 2 then Own(r, f) else 0
  }

  /** What a reconcile stopped after `stop` writes takes off the account: the members suppressed so far, as
      long as the Job that carries them does not exist; and, if it was not stopped, what it loses anyway. */
  ghost function LostBy(cfg: Config, s: Store, name: string, now: Time, view: View, stop: nat, f: Finding): nat {
    if stop >= |Plan(cfg, s, name, now, view)| then Lost(cfg, s, name, now, view, f)
    else if name in s.rjobs && Dispatchable(s, s.rjobs[name]) && RouteOf(cfg, s, s.rjobs[name], now, view).Lead? then
      LeadOut(Members(s, s.rjobs[name], RouteOf(cfg, s, s.rjobs[name], now, view).group, view), stop, f)
    else 0
  }

  /** What it puts back: the findings of a group recovered, once the Job exists; and the rjob's own, which
      counts as waiting and as carried while its Job exists and it does not yet know. */
  ghost function RegainedBy(cfg: Config, s: Store, name: string, now: Time, view: View, stop: nat, f: Finding): nat {
    if stop >= |Plan(cfg, s, name, now, view)| then Regained(cfg, s, name, now, view, f)
    else if !(name in s.rjobs && Dispatchable(s, s.rjobs[name])) then 0
    else
      var r := s.rjobs[name];
      match RouteOf(cfg, s, r, now, view)
      case Hold => 0
      case Lead(g) => LeadIn(r, Members(s, r, g, view), stop, f)
      case Recover => if stop > Repairs(r) then Own(r, f) + |UnderWith(s, r.groupID, f)| else 0
      case Solo => if stop > 0 then Own(r, f) else 0
  }

  lemma LeadFirstHalf(cfg: Config, s: Store, r: RJob, g: Group, now: Time, view: View, stop: nat, f: Finding)
    requires WellKeyed(s) && ValidView(s, view) && view.nextGroup != "" && Dispatchable(s, r)
    requires stop <= 2 * |Members(s, r, g, view)|
    ensures Held(CommitAll(s, Prefix(LeadWrites(cfg, s, r, g, now, view), stop)), f)
            + CountIn(Members(s, r, g, view)[..(stop + 1) / 2], f) == Held(s, f)
  {
    var ms, gid := Members(s, r, g, view), GroupIDFor(r, view.nextGroup);
    MembersSuppressible(s, r, g, view);
    SuppressPart(cfg, s, ms, gid, stop, f);
    assert Prefix(LeadWrites(cfg, s, r, g, now, view), stop) == SuppressWrites(ms, gid)[..stop];
    SuppressionsOnly(ms, gid);
    NoJobNoDispatch(s, SuppressWrites(ms, gid)[..stop]);
  }

  lemma SuppressedHeld(cfg: Config, s: Store, r: RJob, g: Group, view: View, gid: string, f: Finding)
    requires WellKeyed(s) && ValidView(s, view) && gid != "" && Dispatchable(s, r)
    ensures var mid := CommitAll(s, SuppressWrites(Members(s, r, g, view), gid));
            && Held(mid, f) + CountIn(Members(s, r, g, view), f) == Held(s, f)
            && mid.jobs == s.jobs && r.name in mid.rjobs && mid.rjobs[r.name] == r
  {
    var ms := Members(s, r, g, view);
    MembersSuppressible(s, r, g, view);
    PrimaryNotMember(s, r, g, view);
    SuppressTakes(cfg, s, ms, gid, f);
    SuppressEffect(cfg, s, 0, 0, ms, gid);
  }

  /** The writes of a leading reconcile, counted. */
  lemma LeadPrefix(cfg: Config, s: Store, r: RJob, g: Group, now: Time, view: View, k: nat)
    requires Dispatchable(s, r) && k <= 2
    ensures var ms, gid, ws := Members(s, r, g, view), GroupIDFor(r, view.nextGroup), LeadWrites(cfg, s, r, g, now, view);
            Prefix(ws, 2 * |ms| + k) == SuppressWrites(ms, gid) + [SetGroup(r.name, gid), LabelPrimary(r.name, gid)][..k]
  {
    SuppressLength(Members(s, r, g, view), GroupIDFor(r, view.nextGroup));
  }

  lemma LeadLength(cfg: Config, s: Store, r: RJob, g: Group, now: Time, view: View)
    requires Dispatchable(s, r)
    ensures |LeadWrites(cfg, s, r, g, now, view)| == 2 * |Members(s, r, g, view)| + if Quashed(cfg, view.injected) then 3 else 4
  {
    SuppressLength(Members(s, r, g, view), GroupIDFor(r, view.nextGroup));
  }

  lemma LeadCreates(cfg: Config, s: Store, r: RJob, g: Group, now: Time, view: View)
    requires Dispatchable(s, r) && !Quashed(cfg, view.injected)
    ensures Prefix(LeadWrites(cfg, s, r, g, now, view), 2 * |Members(s, r, g, view)| + 3)
            == FormWrites(s, r, g, GroupIDFor(r, view.nextGroup), view) + [CreateJob(BuildJob(r, g.findings, now))]
  {
    SuppressLength(Members(s, r, g, view), GroupIDFor(r, view.nextGroup));
  }

  lemma MarkingStore(cfg: Config, s: Store, r: RJob, g: Group, now: Time, view: View, k: nat)
    requires Dispatchable(s, r) && k <= 2
    ensures var ms, gid := Members(s, r, g, view), GroupIDFor(r, view.nextGroup);
            CommitAll(s, Prefix(LeadWrites(cfg, s, r, g, now, view), 2 * |ms| + k))
            == CommitAll(CommitAll(s, SuppressWrites(ms, gid)), [SetGroup(r.name, gid), LabelPrimary(r.name, gid)][..k])
  {
    var ms, gid := Members(s, r, g, view), GroupIDFor(r, view.nextGroup);
    LeadPrefix(cfg, s, r, g, now, view, k);
    CommitConcat(s, SuppressWrites(ms, gid), [SetGroup(r.name, gid), LabelPrimary(r.name, gid)][..k]);
  }

  lemma MarkedHeld(cfg: Config, s: Store, r: RJob, g: Group, view: View, gid: string, k: nat, f: Finding)
    requires WellKeyed(s) && ValidView(s, view) && gid != "" && Dispatchable(s, r) && k <= 2
    ensures Held(CommitAll(CommitAll(s, SuppressWrites(Members(s, r, g, view), gid)), [SetGroup(r.name, gid), LabelPrimary(r.name, gid)][..k]), f)
            + CountIn(Members(s, r, g, view), f) == Held(s, f)
  {
    SuppressedHeld(cfg, s, r, g, view, gid, f);
    MarksConserve(CommitAll(s, SuppressWrites(Members(s, r, g, view), gid)), r.name, gid, k, f);
  }

  lemma LeadMarking(cfg: Config, s: Store, r: RJob, g: Group, now: Time, view: View, k: nat, f: Finding)
    requires WellKeyed(s) && ValidView(s, view) && view.nextGroup != "" && Dispatchable(s, r) && k <= 2
    ensures Held(CommitAll(s, Prefix(LeadWrites(cfg, s, r, g, now, view), 2 * |Members(s, r, g, view)| + k)), f)
            + CountIn(Members(s, r, g, view), f) == Held(s, f)
  {
    MarkingStore(cfg, s, r, g, now, view, k);
    MarkedHeld(cfg, s, r, g, view, GroupIDFor(r, view.nextGroup), k, f);
  }

  /** The Job exists but the primary is not marked. */
  lemma LeadUnmarked(cfg: Config, s: Store, r: RJob, g: Group, now: Time, view: View, f: Finding)
    requires WellKeyed(s) && ValidView(s, view) && view.nextGroup != "" && Dispatchable(s, r) && !Quashed(cfg, view.injected)
    requires g.findings == Map(FindingOf(), Members(s, r, g, view))
    ensures Held(CommitAll(s, Prefix(LeadWrites(cfg, s, r, g, now, view), 2 * |Members(s, r, g, view)| + 3)), f) == Held(s, f) + Own(r, f)
  {
    var gid := GroupIDFor(r, view.nextGroup);
    var form, job := FormWrites(s, r, g, gid, view), BuildJob(r, g.findings, now);
    LeadCreates(cfg, s, r, g, now, view);
    CommitConcat(s, form, [CreateJob(job)]);
    assert CommitAll(s, form).jobs == s.jobs by {
      FormPatches(s, r, g, gid, view);
    }
    assert Held(CommitAll(s, form), f) + multiset(g.findings)[f] == Held(s, f) by {
      FormHeld(cfg, s, r, g, view, gid, f);
    }
    JobCounts(CommitAll(s, form), job, f);
  }

  lemma FormHeld(cfg: Config, s: Store, r: RJob, g: Group, view: View, gid: string, f: Finding)
    requires WellKeyed(s) && ValidView(s, view) && gid != "" && Dispatchable(s, r)
    ensures Held(CommitAll(s, FormWrites(s, r, g, gid, view)), f) + CountIn(Members(s, r, g, view), f) == Held(s, f)
  {
    FormPatches(s, r, g, gid, view);
    FormTakes(cfg, s, r, g, gid, view, f);
  }

  lemma LeadStopped(cfg: Config, s: Store, r: RJob, g: Group, now: Time, view: View, stop: nat, f: Finding)
    requires WellKeyed(s) && ValidView(s, view) && view.nextGroup != "" && Dispatchable(s, r)
    requires g.findings == Map(FindingOf(), Members(s, r, g, view)) && stop < |LeadWrites(cfg, s, r, g, now, view)|
    ensures var ms := Members(s, r, g, view);
            Held(CommitAll(s, Prefix(LeadWrites(cfg, s, r, g, now, view), stop)), f) + LeadOut(ms, stop, f) == Held(s, f) + LeadIn(r, ms, stop, f)
  {
    var k := 2 * |Members(s, r, g, view)|;
    var t := CommitAll(s, Prefix(LeadWrites(cfg, s, r, g, now, view), stop));
    if stop <= k {
      assert Held(t, f) + CountIn(Members(s, r, g, view)[..(stop + 1) / 2], f) == Held(s, f) by {
        LeadFirstHalf(cfg, s, r, g, now, view, stop, f);
      }
    } else if stop <= k + 2 {
      assert Held(t, f) + CountIn(Members(s, r, g, view), f) == Held(s, f) by {
        StoppedMarking(cfg, s, r, g, now, view, stop, f);
      }
    } else {
      assert Held(t, f) == Held(s, f) + Own(r, f) by {
        StoppedUnmarked(cfg, s, r, g, now, view, stop, f);
      }
    }
  }

  lemma StoppedMarking(cfg: Config, s: Store, r: RJob, g: Group, now: Time, view: View, stop: nat, f: Finding)
    requires WellKeyed(s) && ValidView(s, view) && view.nextGroup != "" && Dispatchable(s, r)
    requires 2 * |Members(s, r, g, view)| < stop <= 2 * |Members(s, r, g, view)| + 2
    ensures Held(CommitAll(s, Prefix(LeadWrites(cfg, s, r, g, now, view), stop)), f) + CountIn(Members(s, r, g, view), f) == Held(s, f)
  {
    var k := stop - 2 * |Members(s, r, g, view)|;
    assert stop == 2 * |Members(s, r, g, view)| + k;
    LeadMarking(cfg, s, r, g, now, view, k, f);
  }

  lemma StoppedUnmarked(cfg: Config, s: Store, r: RJob, g: Group, now: Time, view: View, stop: nat, f: Finding)
    requires WellKeyed(s) && ValidView(s, view) && view.nextGroup != "" && Dispatchable(s, r)
    requires g.findings == Map(FindingOf(), Members(s, r, g, view))
    requires 2 * |Members(s, r, g, view)| + 2 < stop < |LeadWrites(cfg, s, r, g, now, view)|
    ensures Held(CommitAll(s, Prefix(LeadWrites(cfg, s, r, g, now, view), stop)), f) == Held(s, f) + Own(r, f)
  {
    assert stop == 2 * |Members(s, r, g, view)| + 3 && !Quashed(cfg, view.injected) by {
      LeadLength(cfg, s, r, g, now, view);
    }
    LeadUnmarked(cfg, s, r, g, now, view, f);
  }

  lemma SoloStopped(cfg: Config, s: Store, r: RJob, now: Time, view: View, stop: nat, f: Finding)
    requires Dispatchable(s, r) && stop < |SoloWrites(cfg, s, r, now, view)|
    ensures Held(CommitAll(s, Prefix(SoloWrites(cfg, s, r, now, view), stop)), f) == Held(s, f) + if stop > 0 then Own(r, f) else 0
  {
    var ws := SoloWrites(cfg, s, r, now, view);
    if stop == 0 {
      assert Prefix(ws, stop) == [];
    } else {
      var job := BuildJob(r, [], now);
      assert Prefix(ws, stop) == [CreateJob(job)];
      JobCounts(s, job, f);
    }
  }

  lemma RecoverStopped(cfg: Config, s: Store, r: RJob, now: Time, view: View, stop: nat, f: Finding)
    requires WellKeyed(s) && ValidView(s, view) && Dispatchable(s, r) && stop < |RecoverWrites(cfg, s, r, now, view)|
    ensures Held(CommitAll(s, Prefix(RecoverWrites(cfg, s, r, now, view), stop)), f)
            == Held(s, f) + if stop > Repairs(r) then Own(r, f) + |UnderWith(s, r.groupID, f)| else 0
  {
    var a := if r.groupLabel == "" then [LabelPrimary(r.name, r.groupID)] else [];
    var ws, job := RecoverWrites(cfg, s, r, now, view), BuildJob(r, Recovered(s, r, view), now);
    var mid := CommitAll(s, a);
    assert Held(mid, f) == Held(s, f) && mid.jobs == s.jobs by {
      RepairConserves(s, r, f);
    }
    if stop == 0 {
      assert Prefix(ws, stop) == [];
    } else if stop <= Repairs(r) {
      assert Prefix(ws, stop) == a;
    } else {
      assert Prefix(ws, stop) == a + [CreateJob(job)];
      CommitConcat(s, a, [CreateJob(job)]);
      JobCounts(mid, job, f);
      RecoveredIsUnder(s, r, view, f);
    }
  }

  lemma RepairConserves(s: Store, r: RJob, f: Finding)
    requires r.name in s.rjobs
    ensures var mid := CommitAll(s, if r.groupLabel == "" then [LabelPrimary(r.name, r.groupID)] else []);
            Held(mid, f) == Held(s, f) && mid.jobs == s.jobs
  {
    PatchConserves(s, LabelPrimary(r.name, r.groupID), f);
  }

  /** Every reconcile of any rjob, in any state, on any route and stopped after any of its writes, leaves
      what waits plus what Jobs carry as it was but for the entries defined above. */
  lemma ReconcileBalances(cfg: Config, s: Store, name: string, now: Time, view: View, stop: nat, f: Finding)
    requires WellKeyed(s) && ValidView(s, view) && view.nextGroup != ""
    ensures Held(CommitAll(s, Prefix(Plan(cfg, s, name, now, view), stop)), f) + LostBy(cfg, s, name, now, view, stop, f)
            == Held(s, f) + RegainedBy(cfg, s, name, now, view, stop, f)
  {
    var plan := Plan(cfg, s, name, now, view);
    if stop >= |plan| {
      assert Prefix(plan, stop) == plan;
      FindingsConserved(cfg, s, name, now, view, f);
    } else if name in s.rjobs && Dispatchable(s, s.rjobs[name]) {
      assert plan == PendingWrites(cfg, s, s.rjobs[name], now, view) by {
        OwnedIsJob(s, name, view);
      }
      PendingStopped(cfg, s, name, now, view, stop, f);
    } else {
      ShortPlan(cfg, s, name, now, view);
      assert Prefix(plan, stop) == [];
    }
  }

  /** Other plans have one write at most. */
  lemma ShortPlan(cfg: Config, s: Store, name: string, now: Time, view: View)
    requires WellKeyed(s) && ValidView(s, view) && !(name in s.rjobs && Dispatchable(s, s.rjobs[name]))
    ensures |Plan(cfg, s, name, now, view)| <= 1
  {
    if name in s.rjobs {
      OwnedIsJob(s, name, view);
    }
  }

  lemma PendingStopped(cfg: Config, s: Store, name: string, now: Time, view: View, stop: nat, f: Finding)
    requires WellKeyed(s) && ValidView(s, view) && view.nextGroup != "" && name in s.rjobs && Dispatchable(s, s.rjobs[name])
    requires Plan(cfg, s, name, now, view) == PendingWrites(cfg, s, s.rjobs[name], now, view) && stop < |Plan(cfg, s, name, now, view)|
    ensures Held(CommitAll(s, Prefix(PendingWrites(cfg, s, s.rjobs[name], now, view), stop)), f) + LostBy(cfg, s, name, now, view, stop, f)
            == Held(s, f) + RegainedBy(cfg, s, name, now, view, stop, f)
  {
    var r := s.rjobs[name];
    match RouteOf(cfg, s, r, now, view)
    case Hold =>
    case Lead(g) =>
      LeadFindings(cfg, s, r, now, view);
      LeadStopped(cfg, s, r, g, now, view, stop, f);
    case Recover =>
      RecoverStopped(cfg, s, r, now, view, stop, f);
    case Solo =>
      SoloStopped(cfg, s, r, now, view, stop, f);
  }

  // ---- A provider reconcile, stopped ----

  /** How many of them wait and have the finding. */
  function WaitingAmong(rs: seq<RJob>, f: Finding): nat {
    if rs == [] then 0 else WaitingAmong(rs[..|rs| - 1], f) + Share(rs[|rs| - 1], f)
  }

  /** Those whose cancellation began, of `rs` cancelled in order. */
  function Begun(rs: seq<RJob>, stop: nat): seq<RJob> {
    rs[..if stop >= 2 * |rs| then |rs| else (stop + 1) / 2]
  }

  lemma {:induction false} CancelPart(cfg: Config, s: Store, rs: seq<RJob>, stop: nat, f: Finding)
    requires CancellableIn(s, rs)
    ensures |CancelWrites(rs)| == 2 * |rs|
    ensures var t := CommitAll(s, Prefix(CancelWrites(rs), stop));
            && WaitingCount(t.rjobs, f) + WaitingAmong(Begun(rs, stop), f) == WaitingCount(s.rjobs, f)
            && t.dispatched == s.dispatched
  {
    if rs == [] {
      assert Prefix(CancelWrites(rs), stop) == [] && Begun(rs, stop) == [];
    } else {
      var front, last := rs[..|rs| - 1], rs[|rs| - 1];
      CancelFront(s, rs);
      CancelPart(cfg, s, front, stop, f);
      if stop <= 2 * |front| {
        assert Prefix(CancelWrites(rs), stop) == Prefix(CancelWrites(front), stop);
        assert Begun(rs, stop) == Begun(front, stop);
      } else {
        CancelLastPart(cfg, s, rs, stop, f);
      }
    }
  }

  lemma CancelLastPart(cfg: Config, s: Store, rs: seq<RJob>, stop: nat, f: Finding)
    requires CancellableIn(s, rs) && rs != [] && stop > 2 * (|rs| - 1) && |CancelWrites(rs[..|rs| - 1])| == 2 * (|rs| - 1)
    requires CancellableIn(s, rs[..|rs| - 1]) && rs[|rs| - 1] in rs && !Named(rs[..|rs| - 1], rs[|rs| - 1].name)
    requires var front := rs[..|rs| - 1];
             var t := CommitAll(s, Prefix(CancelWrites(front), stop));
             WaitingCount(t.rjobs, f) + WaitingAmong(Begun(front, stop), f) == WaitingCount(s.rjobs, f) && t.dispatched == s.dispatched
    ensures var t := CommitAll(s, Prefix(CancelWrites(rs), stop));
            && WaitingCount(t.rjobs, f) + WaitingAmong(Begun(rs, stop), f) == WaitingCount(s.rjobs, f)
            && t.dispatched == s.dispatched
  {
    var front, last := rs[..|rs| - 1], rs[|rs| - 1];
    var half := stop == 2 * |front| + 1;
    assert Prefix(CancelWrites(front), stop) == CancelWrites(front) && Begun(front, stop) == front && Begun(rs, stop) == rs;
    CancelPrefix(rs, stop);
    CommitConcat(s, CancelWrites(front), if half then [MarkCancelled(last.name)] else [MarkCancelled(last.name), Remove(last.name)]);
    var mid := CommitAll(s, CancelWrites(front));
    assert last.name in mid.rjobs && mid.rjobs[last.name] == last by {
      CancelEnabled(cfg, s, 0, 0, front);
    }
    OneCancelled(cfg, mid, last, half, f);
  }

  lemma CancelPrefix(rs: seq<RJob>, stop: nat)
    requires rs != [] && stop > 2 * (|rs| - 1) && |CancelWrites(rs[..|rs| - 1])| == 2 * (|rs| - 1)
    ensures var front, last := rs[..|rs| - 1], rs[|rs| - 1];
            Prefix(CancelWrites(rs), stop) == CancelWrites(front)
              + if stop == 2 * |front| + 1 then [MarkCancelled(last.name)] else [MarkCancelled(last.name), Remove(last.name)]
  {
  }

  lemma OneCancelled(cfg: Config, s: Store, r: RJob, half: bool, f: Finding)
    requires r.name in s.rjobs && s.rjobs[r.name] == r && Cancellable(r.phase)
    ensures var t := CommitAll(s, if half then [MarkCancelled(r.name)] else [MarkCancelled(r.name), Remove(r.name)]);
            WaitingCount(t.rjobs, f) + Share(r, f) == WaitingCount(s.rjobs, f) && t.dispatched == s.dispatched
  {
    if half {
      CommitOne(s, MarkCancelled(r.name));
      WaitingPut(s.rjobs, r.name, r.(phase := Cancelled), f);
    } else {
      CancelOneEnabled(cfg, s, 0, 0, r);
      WaitingWithout(s.rjobs, r.name, f);
    }
  }

  lemma ReportStopped(cfg: Config, s: Store, look: Look, now: Time, stop: nat, f: Finding)
    requires WellKeyed(s) && Enumerates(look.order, s.rjobs) && Unused(s, look.uid)
    requires look.observed.Report? && |look.observed.fingerprint| >= 12
    ensures var t := CommitAll(s, Prefix(ReportWrites(cfg, s, look, now), stop));
            Held(t, f) == Held(s, f) + if NewWith(t, look, f) then 1 else 0
  {
    var ws := ReportWrites(cfg, s, look, now);
    if stop >= |ws| {
      assert Prefix(ws, stop) == ws;
      ReportAccounts(cfg, s, look, now, f);
    } else if stop == 0 {
      assert Prefix(ws, stop) == [];
    } else {
      var n := RJobName(look.observed.fingerprint);
      ReportCases(cfg, s, look, now);
      assert Prefix(ws, stop) == [Remove(n)];
      CommitOne(s, Remove(n));
      OneWriteConserves(s, Remove(n), f);
    }
  }

  /** What a provider reconcile takes off the account: waiting rjobs whose cancellation began. */
  function CancelledBySoFar(s: Store, look: Look, stop: nat, f: Finding): nat {
    if look.observed.SourceDeleted?
    then WaitingAmong(Begun(Filter(CancelledBy(look.source), Listing(look.order, s.rjobs)), stop), f)
    else 0
  }

  lemma ProviderBalances(cfg: Config, s: Store, seen: Seen, last: Option<Time>, look: Look, now: Time, stop: nat, f: Finding)
    requires WellKeyed(s) && Enumerates(look.order, s.rjobs) && Unused(s, look.uid)
    ensures var t := CommitAll(s, Prefix(React(cfg, s, seen, last, look, now).writes, stop));
            Held(t, f) + CancelledBySoFar(s, look, stop, f) == Held(s, f) + if NewWith(t, look, f) then 1 else 0
  {
    match look.observed
    case SourceDeleted =>
      DeletionStopped(cfg, s, seen, last, look, now, stop, f);
    case Report(_, _, _, _) =>
      GatesDecide(cfg, s, seen, last, look, now);
      if GatesOpen(cfg, seen, last, look, now) {
        ReportStopped(cfg, s, look, now, stop, f);
      }
    case _ =>
  }

  lemma DeletionStopped(cfg: Config, s: Store, seen: Seen, last: Option<Time>, look: Look, now: Time, stop: nat, f: Finding)
    requires WellKeyed(s) && Enumerates(look.order, s.rjobs) && Unused(s, look.uid) && look.observed.SourceDeleted?
    ensures var t := CommitAll(s, Prefix(React(cfg, s, seen, last, look, now).writes, stop));
            Held(t, f) + CancelledBySoFar(s, look, stop, f) == Held(s, f) && !NewWith(t, look, f)
  {
    var rs := Filter(CancelledBy(look.source), Listing(look.order, s.rjobs));
    DeletionWrites(cfg, s, seen, last, look, now);
    assert CancellableIn(s, rs) by {
      FilteredListing(CancelledBy(look.source), look.order, s);
    }
    CancelPart(cfg, s, rs, stop, f);
    CancelsOnly(rs);
    assert forall w :: w in Prefix(CancelWrites(rs), stop) ==> w in CancelWrites(rs);
    CancelAddsNobody(s, Prefix(CancelWrites(rs), stop), look.uid);
  }

  lemma {:induction false} CancelsOnly(rs: seq<RJob>)
    ensures forall w :: w in CancelWrites(rs) ==> w.MarkCancelled? || w.Remove?
  {
    if rs != [] {
      CancelsOnly(rs[..|rs| - 1]);
    }
  }

  lemma {:induction false} CancelAddsNobody(s: Store, ws: seq<Write>, uid: UID)
    requires Unused(s, uid) && forall w :: w in ws ==> w.MarkCancelled? || w.Remove?
    ensures forall n :: n in CommitAll(s, ws).rjobs ==> CommitAll(s, ws).rjobs[n].uid < uid
  {
    if ws != [] {
      CancelAddsNobody(s, ws[..|ws| - 1], uid);
      assert ws[|ws| - 1] in ws;
    }
  }

  // ---- Runs ----

  /** Creations, and findings recovered. */
  ghost function StepIn(cfg: Config, s: State, step: Step, f: Finding): nat {
    match step
    case Control(name, view, stop) => RegainedBy(cfg, s.store, name, s.now, view, stop, f)
    case Provide(_, look, _, _) => if NewWith(Next(cfg, s, step).store, look, f) then 1 else 0
    case _ => 0
  }

  /** Cancellations of waiting rjobs, and findings lost. */
  ghost function StepOut(cfg: Config, s: State, step: Step, f: Finding): nat {
    match step
    case Control(name, view, stop) => LostBy(cfg, s.store, name, s.now, view, stop, f)
    case Provide(_, look, _, stop) => CancelledBySoFar(s.store, look, stop, f)
    case _ => 0
  }

  lemma StepBalances(cfg: Config, env: Env, s: State, step: Step, f: Finding)
    requires Inv(cfg, env, s) && Legal(cfg, env, s, step)
    ensures Held(Next(cfg, s, step).store, f) + StepOut(cfg, s, step, f) == Held(s.store, f) + StepIn(cfg, s, step, f)
  {
    match step
    case Control(name, view, stop) =>
      ReconcileBalances(cfg, s.store, name, s.now, view, stop, f);
    case Provide(_, _, _, _) =>
      ProvideBalances(cfg, env, s, step, f);
    case AgentSink(n, url) =>
      WaitingPut(s.store.rjobs, n, s.store.rjobs[n].(sinkURL := url), f);
    case _ =>
  }

  lemma ProvideBalances(cfg: Config, env: Env, s: State, step: Step, f: Finding)
    requires Inv(cfg, env, s) && Legal(cfg, env, s, step) && step.Provide?
    ensures Held(Next(cfg, s, step).store, f) + StepOut(cfg, s, step, f) == Held(s.store, f) + StepIn(cfg, s, step, f)
  {
    var look := Perceived(s, step.look, step.origin);
    PerceivedKeeps(s, step.look, step.origin);
    ProviderBalances(cfg, s.store, MemoryOf(cfg, s, step.p), s.lastAllowed, look, s.now, step.stop, f);
    SameNew(Next(cfg, s, step).store, step.look, look, f);
  }

  lemma SameNew(t: Store, a: Look, b: Look, f: Finding)
    requires a.uid == b.uid
    ensures NewWith(t, a, f) <==> NewWith(t, b, f)
  {
  }

  ghost function TotalIn(cfg: Config, s: State, steps: seq<Step>, f: Finding): nat
    decreases |steps|
  {
    if steps == [] then 0 else StepIn(cfg, s, steps[0], f) + TotalIn(cfg, Next(cfg, s, steps[0]), steps[1..], f)
  }

  ghost function TotalOut(cfg: Config, s: State, steps: seq<Step>, f: Finding): nat
    decreases |steps|
  {
    if steps == [] then 0 else StepOut(cfg, s, steps[0], f) + TotalOut(cfg, Next(cfg, s, steps[0]), steps[1..], f)
  }

  /** The account balances over every run, with reconciles of both kinds stopped anywhere, restarts and any
      Job activity: a finding is waiting or carried at the end as often as at the start, plus its creations
      and recoveries, minus cancellations of waiting rjobs and losses. */
  lemma {:induction false} RunBalances(cfg: Config, env: Env, s: State, steps: seq<Step>, f: Finding)
    requires Inv(cfg, env, s) && LegalRun(cfg, env, s, steps)
    ensures Held(Run(cfg, s, steps).store, f) + TotalOut(cfg, s, steps, f) == Held(s.store, f) + TotalIn(cfg, s, steps, f)
    decreases |steps|
  {
    if steps != [] {
      StepBalances(cfg, env, s, steps[0], f);
      StepKeepsInv(cfg, env, s, steps[0]);
      RunBalances(cfg, env, Next(cfg, s, steps[0]), steps[1..], f);
    }
  }
}
