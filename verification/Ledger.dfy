/** The account of every finding over complete reconciles of both kinds of controller: what waits and what
    Jobs carry changes only by entries that can be read off the states. */
module Ledger {
  import opened Types
  import opened Seqs
  import opened Stores
  import opened Controller
  import opened BoundedMaps
  import opened Provider
  import opened Lifecycle
  import opened Admissions
  import opened Conservation
  import opened Recovery

  // ---- The controller ----

  /** Pending, but a Job of its name exists: the rjob takes on that Job's status and is not dispatched. */
  predicate TakesOn(s: Store, name: string) {
    && name in s.rjobs && s.rjobs[name].phase == Pending
    && |s.rjobs[name].fingerprint| >= 12 && JobName(s.rjobs[name].fingerprint) in s.jobs
  }

  /** Pending without a Job, not held, and past the gate where its route asks it. */
  ghost predicate Due(cfg: Config, s: Store, name: string, now: Time, view: View) {
    && name in s.rjobs && Dispatchable(s, s.rjobs[name])
    && RouteOf(cfg, s, s.rjobs[name], now, view) != Hold
    && (RouteOf(cfg, s, s.rjobs[name], now, view).Lead? || !Limited(cfg, s, now, view))
  }

  /** What a reconcile takes off the account: the finding of an rjob that takes on a Job of its name, and
      that of one suppressed as an injection together with those of the group it leads. */
  ghost function Lost(cfg: Config, s: Store, name: string, now: Time, view: View, f: Finding): nat {
    if TakesOn(s, name) then Own(s.rjobs[name], f)
    else if Due(cfg, s, name, now, view) && Quashed(cfg, view.injected) then
      var route := RouteOf(cfg, s, s.rjobs[name], now, view);
      Own(s.rjobs[name], f) + if route.Lead? then multiset(route.group.findings)[f] else 0
    else 0
  }

  /** What it puts back: the findings suppressed under an interrupted group that is recovered. */
  ghost function Regained(cfg: Config, s: Store, name: string, now: Time, view: View, f: Finding): nat {
    if Due(cfg, s, name, now, view) && !Quashed(cfg, view.injected) && RouteOf(cfg, s, s.rjobs[name], now, view).Recover?
    then |UnderWith(s, s.rjobs[name].groupID, f)| else 0
  }

  lemma PendingAccounts(cfg: Config, s: Store, name: string, now: Time, view: View, f: Finding)
    requires WellKeyed(s) && ValidView(s, view) && view.nextGroup != ""
    requires name in s.rjobs && Dispatchable(s, s.rjobs[name])
    ensures Held(CommitAll(s, PendingWrites(cfg, s, s.rjobs[name], now, view)), f) + Lost(cfg, s, name, now, view, f)
            == Held(s, f) + Regained(cfg, s, name, now, view, f)
  {
    var r := s.rjobs[name];
    match RouteOf(cfg, s, r, now, view)
    case Hold =>
    case Recover =>
      RecoverConserves(cfg, s, r, now, view, f);
      RecoveredIsUnder(s, r, view, f);
    case Solo =>
      SoloConserves(cfg, s, r, now, view, f);
    case Lead(_) =>
      LeadConserves(cfg, s, r, now, view, f);
  }

  lemma TakingOnAccounts(cfg: Config, s: Store, name: string, now: Time, view: View, f: Finding)
    requires WellKeyed(s) && ValidView(s, view) && TakesOn(s, name)
    ensures Held(CommitAll(s, Plan(cfg, s, name, now, view)), f) + Own(s.rjobs[name], f) == Held(s, f)
  {
    OwnedIsJob(s, name, view);
    var r, job := s.rjobs[name], s.jobs[JobName(s.rjobs[name].fingerprint)];
    assert Plan(cfg, s, name, now, view) == [SyncFrom(name, job, now)];
    CommitOne(s, SyncFrom(name, job, now));
    WaitingPut(s.rjobs, name, Synced(r, job, now), f);
  }

  lemma SettledAccounts(cfg: Config, s: Store, name: string, now: Time, view: View, f: Finding)
    requires name in s.rjobs && s.rjobs[name].phase != Pending
    ensures Held(CommitAll(s, Plan(cfg, s, name, now, view)), f) == Held(s, f)
  {
    var plan := Plan(cfg, s, name, now, view);
    SettledPlan(cfg, s, name, now, view);
    if plan != [] {
      CommitOne(s, plan[0]);
      OneWriteConserves(s, plan[0], f);
    }
  }

  /** Conservation: every complete reconcile of any rjob, in any state and on any route, leaves the
      findings that wait plus those that Jobs carry as they were, each with its multiplicity, but for what
      it loses and regains as defined above. In particular a suppressed finding rides in exactly one Job. */
  lemma FindingsConserved(cfg: Config, s: Store, name: string, now: Time, view: View, f: Finding)
    requires WellKeyed(s) && ValidView(s, view) && view.nextGroup != ""
    ensures Held(CommitAll(s, Plan(cfg, s, name, now, view)), f) + Lost(cfg, s, name, now, view, f)
            == Held(s, f) + Regained(cfg, s, name, now, view, f)
  {
    if name !in s.rjobs {
    } else if s.rjobs[name].phase != Pending {
      SettledAccounts(cfg, s, name, now, view, f);
    } else if TakesOn(s, name) {
      TakingOnAccounts(cfg, s, name, now, view, f);
    } else {
      OwnedIsJob(s, name, view);
      PendingAccounts(cfg, s, name, now, view, f);
    }
  }

  // ---- The providers ----

  lemma WaitingAdded(m: map<string, RJob>, n: string, r: RJob, f: Finding)
    requires n !in m
    ensures WaitingCount(m[n := r], f) == WaitingCount(m, f) + Share(r, f)
  {
    WaitingWithout(m[n := r], n, f);
    assert m[n := r] - {n} == m;
  }

  /** The rjob this reconcile would create has the finding, and was created. */
  predicate NewWith(t: Store, look: Look, f: Finding) {
    exists n :: n in t.rjobs && t.rjobs[n].uid == look.uid && t.rjobs[n].finding == f
  }

  lemma CreateAccounts(cfg: Config, s: Store, look: Look, now: Time, f: Finding)
    requires look.observed.Report? && |look.observed.fingerprint| >= 12
    requires forall n :: n in s.rjobs ==> s.rjobs[n].uid != look.uid
    ensures var t := CommitAll(s, CreateWrites(cfg, s, look, now));
            Held(t, f) == Held(s, f) + if NewWith(t, look, f) then 1 else 0
  {
    var ws, t := CreateWrites(cfg, s, look, now), CommitAll(s, CreateWrites(cfg, s, look, now));
    if ws != [] {
      assert ws == [ws[0]];
      CommitOne(s, ws[0]);
      var r := ws[0].rjob;
      if r.name !in s.rjobs {
        WaitingAdded(s.rjobs, r.name, r, f);
        assert NewWith(t, look, f) <==> r.finding == f by {
          assert t.rjobs[r.name].uid == look.uid;
        }
      }
    }
  }

  lemma ReportAccounts(cfg: Config, s: Store, look: Look, now: Time, f: Finding)
    requires WellKeyed(s) && Enumerates(look.order, s.rjobs) && Unused(s, look.uid)
    requires look.observed.Report? && |look.observed.fingerprint| >= 12
    ensures var t := CommitAll(s, ReportWrites(cfg, s, look, now));
            Held(t, f) == Held(s, f) + if NewWith(t, look, f) then 1 else 0
  {
    var fp := look.observed.fingerprint;
    var n := RJobName(fp);
    ReportCases(cfg, s, look, now);
    if n !in s.rjobs || s.rjobs[n].fingerprint != fp {
      CreateAccounts(cfg, s, look, now, f);
    } else if s.rjobs[n].phase == Failed {
      var mid := CommitAll(s, [Remove(n)]);
      CommitOne(s, Remove(n));
      OneWriteConserves(s, Remove(n), f);
      CreateAccounts(cfg, mid, look, now, f);
      CommitConcat(s, [Remove(n)], CreateWrites(cfg, mid, look, now));
    } else {
      TombstoneAccounts(cfg, s, s.rjobs[n], look, now, f);
    }
  }

  lemma TombstoneAccounts(cfg: Config, s: Store, r: RJob, look: Look, now: Time, f: Finding)
    requires r.name in s.rjobs && s.rjobs[r.name] == r && Unused(s, look.uid)
    ensures var t := CommitAll(s, TombstoneWrites(cfg, r, now, look.merged)); Held(t, f) == Held(s, f) && !NewWith(t, look, f)
  {
    var ws := TombstoneWrites(cfg, r, now, look.merged);
    if ws != [] {
      assert ws == [ws[0]];
      CommitOne(s, ws[0]);
      OneWriteConserves(s, ws[0], f);
    }
  }

  /** The waiting rjobs of a source that have the finding. */
  function WaitingOf(m: map<string, RJob>, source: Ref, f: Finding): set<string> {
    set n | n in WaitingNames(m, f) && m[n].source == source
  }

  lemma DeletionAccounts(cfg: Config, s: Store, seen: Seen, last: Option<Time>, look: Look, now: Time, f: Finding)
    requires WellKeyed(s) && Enumerates(look.order, s.rjobs) && look.observed.SourceDeleted?
    ensures var t := CommitAll(s, React(cfg, s, seen, last, look, now).writes);
            Held(t, f) + |WaitingOf(s.rjobs, look.source, f)| == Held(s, f) && t.rjobs.Keys <= s.rjobs.Keys
            && forall n :: n in t.rjobs ==> t.rjobs[n] == s.rjobs[n]
  {
    var t := CommitAll(s, React(cfg, s, seen, last, look, now).writes);
    assert t.rjobs.Keys <= s.rjobs.Keys && t.dispatched == s.dispatched by {
      DeletionWrites(cfg, s, seen, last, look, now);
      DeletionKeeps(cfg, s, look);
    }
    forall n | n in s.rjobs ensures Taken(s, t, look.source, n) {
      SourceDeletionCancels(cfg, s, seen, last, look, now, n);
    }
    TakenCounts(s, t, look.source, f);
  }

  /** Gone with its source, or as it was. */
  predicate Taken(s: Store, t: Store, source: Ref, n: string)
    requires n in s.rjobs
  {
    if s.rjobs[n].source == source && !Ended(s.rjobs[n].phase) then n !in t.rjobs
    else n in t.rjobs && t.rjobs[n] == s.rjobs[n]
  }

  lemma TakenCounts(s: Store, t: Store, source: Ref, f: Finding)
    requires t.rjobs.Keys <= s.rjobs.Keys && forall n :: n in s.rjobs ==> Taken(s, t, source, n)
    ensures WaitingCount(t.rjobs, f) + |WaitingOf(s.rjobs, source, f)| == WaitingCount(s.rjobs, f)
    ensures forall n :: n in t.rjobs ==> t.rjobs[n] == s.rjobs[n]
  {
    var before, after, gone := WaitingNames(s.rjobs, f), WaitingNames(t.rjobs, f), WaitingOf(s.rjobs, source, f);
    forall n | n in s.rjobs
      ensures n in before <==> n in after || n in gone
      ensures !(n in after && n in gone)
      ensures n in t.rjobs ==> t.rjobs[n] == s.rjobs[n]
    {
      TakenOne(s, t, source, f, n);
    }
    assert before == after + gone && after !! gone;
  }

  lemma TakenOne(s: Store, t: Store, source: Ref, f: Finding, n: string)
    requires n in s.rjobs && Taken(s, t, source, n)
    ensures n in WaitingNames(s.rjobs, f) <==> n in WaitingNames(t.rjobs, f) || n in WaitingOf(s.rjobs, source, f)
    ensures !(n in WaitingNames(t.rjobs, f) && n in WaitingOf(s.rjobs, source, f))
    ensures n in t.rjobs ==> t.rjobs[n] == s.rjobs[n]
  {
  }

  lemma DeletionKeeps(cfg: Config, s: Store, look: Look)
    requires WellKeyed(s) && Enumerates(look.order, s.rjobs)
    ensures var t := CommitAll(s, CancelWrites(Filter(CancelledBy(look.source), Listing(look.order, s.rjobs))));
            t.rjobs.Keys <= s.rjobs.Keys && t.dispatched == s.dispatched
  {
    var rs := Filter(CancelledBy(look.source), Listing(look.order, s.rjobs));
    FilteredListing(CancelledBy(look.source), look.order, s);
    CancelRemoves(cfg, s, rs);
  }

  /** Every complete provider reconcile adds the finding of the rjob it creates and takes off those of the
      waiting rjobs whose source is gone. */
  lemma ProviderAccounts(cfg: Config, s: Store, seen: Seen, last: Option<Time>, look: Look, now: Time, f: Finding)
    requires WellKeyed(s) && Enumerates(look.order, s.rjobs) && Unused(s, look.uid)
    ensures var t := CommitAll(s, React(cfg, s, seen, last, look, now).writes);
            Held(t, f) + (if look.observed.SourceDeleted? then |WaitingOf(s.rjobs, look.source, f)| else 0)
            == Held(s, f) + if NewWith(t, look, f) then 1 else 0
  {
    match look.observed
    case SourceDeleted =>
      DeletionAccounts(cfg, s, seen, last, look, now, f);
    case Report(_, _, _, _) =>
      GatesDecide(cfg, s, seen, last, look, now);
      if GatesOpen(cfg, seen, last, look, now) {
        ReportAccounts(cfg, s, look, now, f);
      }
    case _ =>
  }
}
