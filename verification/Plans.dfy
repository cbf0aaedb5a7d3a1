/** Every write either reconciler issues is enabled at the moment it is issued. */
module Plans {
  import opened Types
  import opened Seqs
  import opened Rules
  import opened Stores
  import opened Controller
  import opened BoundedMaps
  import opened Provider
  import opened Lifecycle

  // ---- Forming a group ----

  /** A Pending peer after both suppression patches. */
  function Quieted(r: RJob, gid: string): RJob {
    r.(phase := Suppressed, groupID := gid, groupLabel := gid, role := ROLE_CORRELATED)
  }

  ghost predicate Named(ms: seq<RJob>, n: string) {
    exists m :: m in ms && m.name == n
  }

  /** Stored, Pending, and none twice. */
  ghost predicate SuppressibleIn(s: Store, ms: seq<RJob>) {
    Distinct(ms) && forall m :: m in ms ==> m.name in s.rjobs && s.rjobs[m.name] == m && m.phase == Pending
  }

  ghost predicate SuppressedStore(s: Store, s': Store, ms: seq<RJob>, gid: string) {
    && s'.jobs == s.jobs && s'.dispatched == s.dispatched && s'.rjobs.Keys == s.rjobs.Keys
    && forall n :: n in s.rjobs ==> s'.rjobs[n] == if Named(ms, n) then Quieted(s.rjobs[n], gid) else s.rjobs[n]
  }

  lemma NamedFront(ms: seq<RJob>)
    requires ms != []
    ensures forall n :: Named(ms, n) <==> Named(ms[..|ms| - 1], n) || n == ms[|ms| - 1].name
  {
    var front, last := ms[..|ms| - 1], ms[|ms| - 1];
    forall n ensures Named(ms, n) <==> Named(front, n) || n == last.name {
      assert forall m :: m in ms <==> m in front || m == last;
    }
  }

  /** The rjobs still to be suppressed are untouched by those suppressed before them. */
  lemma LastUntouched(s: Store, ms: seq<RJob>)
    requires SuppressibleIn(s, ms) && ms != []
    ensures SuppressibleIn(s, ms[..|ms| - 1]) && !Named(ms[..|ms| - 1], ms[|ms| - 1].name)
  {
    DistinctFront(ms);
    assert forall m :: m in ms[..|ms| - 1] ==> m in ms;
    assert ms[|ms| - 1] in ms;
  }

  /** The effect of suppressing a whole group, and that every step of it is enabled. */
  lemma {:induction false} SuppressEffect(cfg: Config, s: Store, now: Time, uid: UID, ms: seq<RJob>, gid: string)
    requires SuppressibleIn(s, ms) && gid != ""
    ensures SuppressedStore(s, CommitAll(s, SuppressWrites(ms, gid)), ms, gid)
    ensures AllEnabled(cfg, s, now, uid, SuppressWrites(ms, gid))
  {
    if ms != [] {
      var front, last := ms[..|ms| - 1], ms[|ms| - 1];
      LastUntouched(s, ms);
      assert last in ms;
      SuppressEffect(cfg, s, now, uid, front, gid);
      var mid := CommitAll(s, SuppressWrites(front, gid));
      SuppressOne(cfg, mid, now, uid, last, gid);
      var pair := [SuppressStatus(last.name, gid), SuppressLabel(last.name, gid)];
      CommitConcat(s, SuppressWrites(front, gid), pair);
      EnabledThen(cfg, s, now, uid, SuppressWrites(front, gid), pair);
      NamedFront(ms);
    }
  }

  lemma SuppressOne(cfg: Config, s: Store, now: Time, uid: UID, r: RJob, gid: string)
    requires r.name in s.rjobs && s.rjobs[r.name] == r && r.phase == Pending && gid != ""
    ensures var ws := [SuppressStatus(r.name, gid), SuppressLabel(r.name, gid)];
            AllEnabled(cfg, s, now, uid, ws) && CommitAll(s, ws) == s.(rjobs := s.rjobs[r.name := Quieted(r, gid)])
  {
    var a, b := SuppressStatus(r.name, gid), SuppressLabel(r.name, gid);
    OneEnabled(cfg, s, now, uid, a);
    OneEnabled(cfg, Commit(s, a), now, uid, b);
    EnabledThen(cfg, s, now, uid, [a], [b]);
    CommitConcat(s, [a], [b]);
    assert [a] + [b] == [a, b];
  }

  /** The members a primary suppresses are stored Pending peers, each listed once. */
  lemma MembersSuppressible(s: Store, r: RJob, g: Group, view: View)
    requires WellKeyed(s) && ValidView(s, view)
    ensures SuppressibleIn(s, Members(s, r, g, view))
    ensures forall m :: m in Members(s, r, g, view) ==> m.uid != r.uid && m.uid in g.correlated
    ensures forall m: RJob :: m.name in s.rjobs && s.rjobs[m.name] == m && m.uid != r.uid && m.phase == Pending && m.uid in g.correlated
                        ==> m in Members(s, r, g, view)
  {
    FilteredListing(PeerOf(r), view.order, s);
    var peers, members := Peers(s, r, view), Members(s, r, g, view);
    forall x ensures multiset(members)[x] <= 1 && (x in members <==> x in peers && x.uid in g.correlated) {
      FilterCount(CorrelatedWith(g.correlated), peers, x);
      FilterMember(CorrelatedWith(g.correlated), peers, x);
      assert multiset(peers)[x] <= 1;
    }
  }

  /** After the group is formed: members suppressed under it, the primary marked. */
  ghost predicate FormedStore(s: Store, s': Store, ms: seq<RJob>, r: RJob, gid: string) {
    && s'.jobs == s.jobs && s'.dispatched == s.dispatched && s'.rjobs.Keys == s.rjobs.Keys
    && r.name in s.rjobs && s'.rjobs[r.name] == r.(groupID := gid, groupLabel := gid, role := ROLE_PRIMARY)
    && forall n :: n in s.rjobs && n != r.name ==> s'.rjobs[n] == if Named(ms, n) then Quieted(s.rjobs[n], gid) else s.rjobs[n]
  }

  lemma PrimaryNotMember(s: Store, r: RJob, g: Group, view: View)
    requires WellKeyed(s) && ValidView(s, view) && r.name in s.rjobs && s.rjobs[r.name] == r
    ensures !Named(Members(s, r, g, view), r.name)
  {
    MembersSuppressible(s, r, g, view);
  }

  /** Marking the primary after its members were suppressed forms the group. */
  lemma FormedBy(s: Store, mid: Store, ms: seq<RJob>, r: RJob, gid: string)
    requires SuppressedStore(s, mid, ms, gid) && r.name in s.rjobs && !Named(ms, r.name)
    ensures FormedStore(s, mid.(rjobs := mid.rjobs[r.name := r.(groupID := gid, groupLabel := gid, role := ROLE_PRIMARY)]), ms, r, gid)
  {
  }

  lemma FormEnabled(cfg: Config, s: Store, now: Time, uid: UID, r: RJob, g: Group, gid: string, view: View)
    requires WellKeyed(s) && ValidView(s, view) && gid != ""
    requires r.name in s.rjobs && s.rjobs[r.name] == r && r.phase == Pending
    ensures AllEnabled(cfg, s, now, uid, FormWrites(s, r, g, gid, view))
    ensures FormedStore(s, CommitAll(s, FormWrites(s, r, g, gid, view)), Members(s, r, g, view), r, gid)
  {
    var ms := Members(s, r, g, view);
    var a, b := SuppressWrites(ms, gid), [SetGroup(r.name, gid), LabelPrimary(r.name, gid)];
    var mid := CommitAll(s, a);
    assert SuppressedStore(s, mid, ms, gid) && AllEnabled(cfg, s, now, uid, a) by {
      MembersSuppressible(s, r, g, view);
      SuppressEffect(cfg, s, now, uid, ms, gid);
    }
    PrimaryNotMember(s, r, g, view);
    MarkEnabled(cfg, mid, now, uid, r, gid);
    FormedBy(s, mid, ms, r, gid);
    EnabledThen(cfg, s, now, uid, a, b);
    CommitConcat(s, a, b);
  }

  lemma MarkEnabled(cfg: Config, s: Store, now: Time, uid: UID, r: RJob, gid: string)
    requires r.name in s.rjobs && s.rjobs[r.name] == r && r.phase == Pending && gid != ""
    ensures var ws := [SetGroup(r.name, gid), LabelPrimary(r.name, gid)];
            && AllEnabled(cfg, s, now, uid, ws)
            && CommitAll(s, ws) ==
               s.(rjobs := s.rjobs[r.name := r.(groupID := gid, groupLabel := gid, role := ROLE_PRIMARY)])
  {
    var a, b := SetGroup(r.name, gid), LabelPrimary(r.name, gid);
    OneEnabled(cfg, s, now, uid, a);
    OneEnabled(cfg, Commit(s, a), now, uid, b);
    EnabledThen(cfg, s, now, uid, [a], [b]);
    CommitConcat(s, [a], [b]);
    assert [a] + [b] == [a, b];
  }

  // ---- Dispatching ----

  /** With no Job of its own, a Pending rjob is dispatched by creating one; the branch that adopts
      an existing Job is not reached. `s0` is the store the decision was read from. */
  lemma DispatchEnabled(cfg: Config, s0: Store, s: Store, now: Time, uid: UID, r: RJob, findings: seq<Finding>, injected: bool)
    requires |r.fingerprint| >= 12 && JobName(r.fingerprint) !in s.jobs && s.jobs == s0.jobs
    requires r.name in s.rjobs && s.rjobs[r.name].phase == Pending
    requires s.rjobs[r.name].(groupID := r.groupID, groupLabel := r.groupLabel, role := r.role) == r
    ensures AllEnabled(cfg, s, now, uid, DispatchWrites(cfg, s0, r, findings, now, injected))
    ensures !(injected && cfg.suppressInjection) ==>
              var job := BuildJob(r, findings, now);
              DispatchWrites(cfg, s0, r, findings, now, injected) == [CreateJob(job), MarkDispatched(r.name, job.name, now)]
              && CommitAll(s, DispatchWrites(cfg, s0, r, findings, now, injected)) ==
                 Store(s.rjobs[r.name := s.rjobs[r.name].(phase := Dispatched, jobRef := job.name, dispatchedAt := Some(now))],
                       s.jobs[job.name := job], s.dispatched + [job])
  {
    if injected && cfg.suppressInjection {
      OneEnabled(cfg, s, now, uid, FailPermanently(r.name));
    } else {
      var job := BuildJob(r, findings, now);
      assert job == BuildJob(s.rjobs[r.name], findings, now);
      var a, b := CreateJob(job), MarkDispatched(r.name, job.name, now);
      OneEnabled(cfg, s, now, uid, a);
      OneEnabled(cfg, Commit(s, a), now, uid, b);
      EnabledThen(cfg, s, now, uid, [a], [b]);
      CommitConcat(s, [a], [b]);
      assert [a] + [b] == [a, b];
    }
  }

  lemma LeadEnabled(cfg: Config, s: Store, now: Time, uid: UID, r: RJob, g: Group, view: View)
    requires WellKeyed(s) && ValidView(s, view) && view.nextGroup != ""
    requires r.name in s.rjobs && s.rjobs[r.name] == r && r.phase == Pending && JobName(r.fingerprint) !in s.jobs
    ensures AllEnabled(cfg, s, now, uid, LeadWrites(cfg, s, r, g, now, view))
  {
    var gid := GroupIDFor(r, view.nextGroup);
    var form := FormWrites(s, r, g, gid, view);
    FormEnabled(cfg, s, now, uid, r, g, gid, view);
    DispatchEnabled(cfg, s, CommitAll(s, form), now, uid, r, g.findings, view.injected);
    EnabledThen(cfg, s, now, uid, form, DispatchWrites(cfg, s, r, g.findings, now, view.injected));
  }

  lemma RecoverEnabled(cfg: Config, s: Store, now: Time, uid: UID, r: RJob, view: View)
    requires WellKeyed(s) && r.name in s.rjobs && s.rjobs[r.name] == r && r.phase == Pending
    requires JobName(r.fingerprint) !in s.jobs
    ensures AllEnabled(cfg, s, now, uid, RecoverWrites(cfg, s, r, now, view))
  {
    var a := if r.groupLabel == "" then [LabelPrimary(r.name, r.groupID)] else [];
    if r.groupLabel == "" {
      OneEnabled(cfg, s, now, uid, LabelPrimary(r.name, r.groupID));
    }
    if !Limited(cfg, s, now, view) {
      var d := DispatchWrites(cfg, s, r, Recovered(s, r, view), now, view.injected);
      DispatchEnabled(cfg, s, CommitAll(s, a), now, uid, r, Recovered(s, r, view), view.injected);
      EnabledThen(cfg, s, now, uid, a, d);
    } else {
      assert RecoverWrites(cfg, s, r, now, view) == a;
    }
  }

  lemma PendingEnabled(cfg: Config, s: Store, now: Time, uid: UID, r: RJob, view: View)
    requires WellKeyed(s) && ValidView(s, view) && view.nextGroup != ""
    requires r.name in s.rjobs && s.rjobs[r.name] == r && r.phase == Pending && JobName(r.fingerprint) !in s.jobs
    ensures AllEnabled(cfg, s, now, uid, PendingWrites(cfg, s, r, now, view))
  {
    match RouteOf(cfg, s, r, now, view)
    case Hold =>
    case Lead(g) =>
      LeadEnabled(cfg, s, now, uid, r, g, view);
    case Recover =>
      RecoverEnabled(cfg, s, now, uid, r, view);
    case Solo =>
      DispatchEnabled(cfg, s, s, now, uid, r, [], view.injected);
  }

  /** The one write of any other reconcile. */
  lemma OtherEnabled(cfg: Config, s: Store, now: Time, uid: UID, name: string, view: View)
    requires WellKeyed(s) && ValidView(s, view) && name in s.rjobs
    requires !(s.rjobs[name].phase == Pending && JobName(s.rjobs[name].fingerprint) !in s.jobs)
    ensures var plan := Plan(cfg, s, name, now, view);
            plan == [] || (plan == [plan[0]] && Enabled(cfg, s, now, uid, plan[0]))
  {
    OwnedIsJob(s, name, view);
  }

  /** Every write of every controller reconcile is enabled when issued. */
  lemma PlanEnabled(cfg: Config, s: Store, now: Time, uid: UID, name: string, view: View)
    requires WellKeyed(s) && ValidView(s, view) && view.nextGroup != ""
    ensures AllEnabled(cfg, s, now, uid, Plan(cfg, s, name, now, view))
  {
    var plan := Plan(cfg, s, name, now, view);
    if name !in s.rjobs {
    } else if s.rjobs[name].phase == Pending && JobName(s.rjobs[name].fingerprint) !in s.jobs {
      assert plan == PendingWrites(cfg, s, s.rjobs[name], now, view) by {
        OwnedIsJob(s, name, view);
      }
      PendingEnabled(cfg, s, now, uid, s.rjobs[name], view);
    } else {
      OtherEnabled(cfg, s, now, uid, name, view);
      if plan != [] {
        OneEnabled(cfg, s, now, uid, plan[0]);
      }
    }
  }

  // ---- The provider ----

  lemma CancelOneEnabled(cfg: Config, s: Store, now: Time, uid: UID, r: RJob)
    requires r.name in s.rjobs && s.rjobs[r.name] == r && Cancellable(r.phase)
    ensures var ws := [MarkCancelled(r.name), Remove(r.name)];
            AllEnabled(cfg, s, now, uid, ws) && CommitAll(s, ws) == s.(rjobs := s.rjobs - {r.name})
  {
    var a, b := MarkCancelled(r.name), Remove(r.name);
    OneEnabled(cfg, s, now, uid, a);
    OneEnabled(cfg, Commit(s, a), now, uid, b);
    EnabledThen(cfg, s, now, uid, [a], [b]);
    CommitConcat(s, [a], [b]);
    assert [a] + [b] == [a, b];
    assert s.rjobs[r.name := r.(phase := Cancelled)] - {r.name} == s.rjobs - {r.name};
  }

  ghost predicate CancellableIn(s: Store, rs: seq<RJob>) {
    Distinct(rs) && forall r :: r in rs ==> r.name in s.rjobs && s.rjobs[r.name] == r && Cancellable(r.phase)
  }

  lemma CancelFront(s: Store, rs: seq<RJob>)
    requires CancellableIn(s, rs) && rs != []
    ensures CancellableIn(s, rs[..|rs| - 1]) && rs[|rs| - 1] in rs && !Named(rs[..|rs| - 1], rs[|rs| - 1].name)
  {
    DistinctFront(rs);
    assert forall r :: r in rs[..|rs| - 1] ==> r in rs;
  }

  lemma {:induction false} CancelEnabled(cfg: Config, s: Store, now: Time, uid: UID, rs: seq<RJob>)
    requires CancellableIn(s, rs)
    ensures AllEnabled(cfg, s, now, uid, CancelWrites(rs))
    ensures forall n :: n in s.rjobs && !Named(rs, n) ==>
              n in CommitAll(s, CancelWrites(rs)).rjobs && CommitAll(s, CancelWrites(rs)).rjobs[n] == s.rjobs[n]
  {
    if rs != [] {
      var front, last := rs[..|rs| - 1], rs[|rs| - 1];
      CancelFront(s, rs);
      CancelEnabled(cfg, s, now, uid, front);
      var mid := CommitAll(s, CancelWrites(front));
      CancelOneEnabled(cfg, mid, now, uid, last);
      var pair := [MarkCancelled(last.name), Remove(last.name)];
      EnabledThen(cfg, s, now, uid, CancelWrites(front), pair);
      CommitConcat(s, CancelWrites(front), pair);
      NamedFront(rs);
    }
  }

  lemma SameCount(s: Store, fp: string, order: seq<string>, x: RJob)
    requires WellKeyed(s) && Enumerates(order, s.rjobs) && |fp| >= 12
    ensures var n := RJobName(fp);
            multiset(Filter(SameFingerprint(fp), Listing(order, s.rjobs)))[x] ==
            if n in s.rjobs && s.rjobs[n].fingerprint == fp && x == s.rjobs[n] then 1 else 0
  {
    FilterCount(SameFingerprint(fp), Listing(order, s.rjobs), x);
    ListsRJob(order, s, x);
  }

  /** At most one rjob is stored for a fingerprint. */
  lemma SameFingerprintIsOne(s: Store, fp: string, order: seq<string>)
    requires WellKeyed(s) && Enumerates(order, s.rjobs) && |fp| >= 12
    ensures var same, n := Filter(SameFingerprint(fp), Listing(order, s.rjobs)), RJobName(fp);
            if n in s.rjobs && s.rjobs[n].fingerprint == fp then same == [s.rjobs[n]] else same == []
  {
    var same, n := Filter(SameFingerprint(fp), Listing(order, s.rjobs)), RJobName(fp);
    forall x ensures multiset(same)[x] ==
                     if n in s.rjobs && s.rjobs[n].fingerprint == fp && x == s.rjobs[n] then 1 else 0 {
      SameCount(s, fp, order, x);
    }
    if n in s.rjobs && s.rjobs[n].fingerprint == fp {
      assert multiset(same) == multiset{s.rjobs[n]};
      OnlyOne(same, s.rjobs[n]);
    }
    assert same != [] ==> multiset(same)[same[0]] > 0;
  }

  lemma CreateEnabled(cfg: Config, s: Store, now: Time, look: Look)
    requires look.observed.Report? && |look.observed.fingerprint| >= 12
    requires forall n :: n in s.rjobs ==> n in look.order
    requires !TooDeep(cfg, look.observed.finding) && Unused(s, look.uid)
    ensures AllEnabled(cfg, s, now, look.uid, CreateWrites(cfg, s, look, now))
  {
    var o := look.observed;
    var ws := CreateWrites(cfg, s, look, now);
    if ws != [] {
      var r := NewRJob(cfg, o.finding, o.node, o.fingerprint, look.source, look.uid, now);
      assert NewlyMade(cfg, r, look.uid, now);
      if o.finding.parent != "" {
        forall n | n in s.rjobs ensures !Covers(o.finding)(s.rjobs[n]) {
          ListingMember(look.order, s.rjobs, s.rjobs[n]);
          FilterMember(Covers(o.finding), Listing(look.order, s.rjobs), s.rjobs[n]);
        }
      }
      OneEnabled(cfg, s, now, look.uid, CreateRJob(r));
    }
  }

  lemma DedupEnabled(cfg: Config, s: Store, now: Time, uid: UID, r: RJob, merged: bool)
    requires r.name in s.rjobs && s.rjobs[r.name] == r
    ensures AllEnabled(cfg, s, now, uid, DedupWrites(cfg, [r], now, merged))
    ensures var s' := CommitAll(s, DedupWrites(cfg, [r], now, merged));
            s'.rjobs.Keys <= s.rjobs.Keys && (Unused(s, uid) ==> Unused(s', uid))
  {
    var ws := DedupWrites(cfg, [r], now, merged);
    assert [r][1..] == [];
    assert DedupWrites(cfg, [], now, merged) == [];
    assert ws == if r.phase == Failed then [Remove(r.name)] else TombstoneWrites(cfg, r, now, merged);
    if ws != [] {
      OneEnabled(cfg, s, now, uid, ws[0]);
    }
  }

  lemma ReportEnabled(cfg: Config, s: Store, now: Time, look: Look)
    requires WellKeyed(s) && Enumerates(look.order, s.rjobs)
    requires look.observed.Report? && |look.observed.fingerprint| >= 12
    requires !TooDeep(cfg, look.observed.finding) && Unused(s, look.uid)
    ensures AllEnabled(cfg, s, now, look.uid, ReportWrites(cfg, s, look, now))
  {
    var fp := look.observed.fingerprint;
    var same := Filter(SameFingerprint(fp), Listing(look.order, s.rjobs));
    SameFingerprintIsOne(s, fp, look.order);
    if same != [] {
      DedupEnabled(cfg, s, now, look.uid, same[0], look.merged);
    }
    var ws := DedupWrites(cfg, same, now, look.merged);
    var mid := CommitAll(s, ws);
    forall n | n in mid.rjobs ensures n in look.order {
      assert n in multiset(look.order);
    }
    CreateEnabled(cfg, mid, now, look);
    EnabledThen(cfg, s, now, look.uid, ws, CreateWrites(cfg, mid, look, now));
  }

  /** Every write of every provider reconcile is enabled when issued. */
  lemma ReactEnabled(cfg: Config, s: Store, seen: Seen, last: Option<Time>, look: Look, now: Time)
    requires WellKeyed(s) && Enumerates(look.order, s.rjobs) && Unused(s, look.uid)
    ensures AllEnabled(cfg, s, now, look.uid, React(cfg, s, seen, last, look, now).writes)
  {
    match look.observed
    case SourceDeleted =>
      FilteredListing(CancelledBy(look.source), look.order, s);
      CancelEnabled(cfg, s, now, look.uid, Filter(CancelledBy(look.source), Listing(look.order, s.rjobs)));
    case Report(f, _, fp, _) =>
      if |fp| >= 12 && !TooDeep(cfg, f) {
        ReportEnabled(cfg, s, now, look);
      }
    case _ =>
  }
}
