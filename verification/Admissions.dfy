/** What one complete provider reconcile does to the store, said without reference to its steps:
    exactly when an rjob is created, and exactly which rjobs a deleted source takes with it. */
module Admissions {
  import opened Types
  import opened Seqs
  import opened Stores
  import opened BoundedMaps
  import opened Provider
  import opened Lifecycle
  import opened Plans
  import opened Guarantees

  // ---- Creation ----

  /** The report gets past the filters, the depth limit, the breaker and the window. */
  predicate GatesOpen(cfg: Config, seen: Seen, last: Option<Time>, look: Look, now: Time)
    requires look.observed.Report?
  {
    var o := look.observed;
    && !look.dropped
    && (o.finding.chainDepth > 0 ==> 0 != cfg.maxDepth && o.finding.chainDepth <= cfg.maxDepth
                                     && (cfg.cooldown > 0 && last.Some? ==> now >= last.value + cfg.cooldown))
    && |o.fingerprint| >= 12
    && (!o.critical && cfg.stabilisation != 0 ==>
          && GetAt(seen, o.fingerprint, now).Some?
          && now >= GetAt(seen, o.fingerprint, now).value + cfg.stabilisation)
  }

  /** No rjob stands in the way: the name is free or taken by a Failed rjob of the same fingerprint, and
      no other rjob of the namespace has the finding's parent and a kind of higher rank. */
  ghost predicate Unopposed(s: Store, f: Finding, fp: string)
    requires |fp| >= 12
  {
    && (RJobName(fp) in s.rjobs ==> s.rjobs[RJobName(fp)].fingerprint == fp && s.rjobs[RJobName(fp)].phase == Failed)
    && (f.parent != "" ==> forall m :: m in s.rjobs && m != RJobName(fp) ==>
          var g := s.rjobs[m].finding;
          g.namespace != f.namespace || g.parent != f.parent || KindHierarchyRank(g.kind) <= KindHierarchyRank(f.kind))
  }

  /** Behind closed gates nothing is written. */
  lemma GatesDecide(cfg: Config, s: Store, seen: Seen, last: Option<Time>, look: Look, now: Time)
    requires look.observed.Report?
    ensures React(cfg, s, seen, last, look, now).writes ==
            if GatesOpen(cfg, seen, last, look, now) then ReportWrites(cfg, s, look, now) else []
  {
  }

  /** The list of covering rjobs is empty exactly when no stored rjob covers. */
  lemma CoveringListed(order: seq<string>, rjobs: map<string, RJob>, f: Finding)
    requires forall n :: n in rjobs ==> n in order
    ensures Filter(Covers(f), Listing(order, rjobs)) == [] <==> forall m :: m in rjobs ==> !Covers(f)(rjobs[m])
  {
    var found := Filter(Covers(f), Listing(order, rjobs));
    if found != [] {
      FilterMember(Covers(f), Listing(order, rjobs), found[0]);
      ListingMember(order, rjobs, found[0]);
    }
    forall m | m in rjobs && Covers(f)(rjobs[m]) ensures found != [] {
      ListingMember(order, rjobs, rjobs[m]);
      FilterMember(Covers(f), Listing(order, rjobs), rjobs[m]);
    }
  }

  lemma CreateDecides(cfg: Config, s: Store, look: Look, now: Time)
    requires look.observed.Report? && |look.observed.fingerprint| >= 12
    requires forall n :: n in s.rjobs ==> n in look.order
    ensures var o := look.observed;
            CreateWrites(cfg, s, look, now) ==
            if look.ready && (o.finding.parent != "" ==> forall m :: m in s.rjobs ==> !Covers(o.finding)(s.rjobs[m]))
            then [CreateRJob(NewRJob(cfg, o.finding, o.node, o.fingerprint, look.source, look.uid, now))] else []
  {
    CoveringListed(look.order, s.rjobs, look.observed.finding);
  }

  /** The writes for a report, by what is stored under its name. */
  lemma ReportCases(cfg: Config, s: Store, look: Look, now: Time)
    requires WellKeyed(s) && Enumerates(look.order, s.rjobs)
    requires look.observed.Report? && |look.observed.fingerprint| >= 12
    ensures var fp := look.observed.fingerprint;
            var n, ws := RJobName(fp), ReportWrites(cfg, s, look, now);
            if n !in s.rjobs || s.rjobs[n].fingerprint != fp then ws == CreateWrites(cfg, s, look, now)
            else if s.rjobs[n].phase == Failed then ws == [Remove(n)] + CreateWrites(cfg, CommitAll(s, [Remove(n)]), look, now)
            else ws == TombstoneWrites(cfg, s.rjobs[n], now, look.merged)
  {
    var fp := look.observed.fingerprint;
    var n := RJobName(fp);
    SameFingerprintIsOne(s, fp, look.order);
    if n in s.rjobs && s.rjobs[n].fingerprint == fp {
      var r := s.rjobs[n];
      assert [r][1..] == [] && DedupWrites(cfg, [], now, look.merged) == [];
      assert [Remove(n)] + [] == [Remove(n)];
      assert AllFailed([r]) <==> r.phase == Failed by {
        assert r in [r];
      }
    } else {
      assert CommitAll(s, []) == s;
      assert [] + CreateWrites(cfg, s, look, now) == CreateWrites(cfg, s, look, now);
    }
  }

  /** `t` is `s` but for what is stored under `n`. */
  predicate OnlyAt(s: Store, t: Store, n: string) {
    t.rjobs - {n} == s.rjobs - {n} && t.jobs == s.jobs && t.dispatched == s.dispatched
  }

  lemma CreateEffect(cfg: Config, s: Store, look: Look, now: Time)
    requires look.observed.Report? && |look.observed.fingerprint| >= 12
    requires forall n :: n in s.rjobs ==> n in look.order && s.rjobs[n].uid != look.uid
    ensures var o := look.observed;
            var n, t := RJobName(o.fingerprint), CommitAll(s, CreateWrites(cfg, s, look, now));
            && OnlyAt(s, t, n)
            && ((n in t.rjobs && t.rjobs[n].uid == look.uid) <==>
                (look.ready && n !in s.rjobs
                 && (o.finding.parent != "" ==> forall m :: m in s.rjobs ==> !Covers(o.finding)(s.rjobs[m]))))
            && (n in t.rjobs && t.rjobs[n].uid == look.uid ==>
                t.rjobs[n] == NewRJob(cfg, o.finding, o.node, o.fingerprint, look.source, look.uid, now))
  {
    CreateDecides(cfg, s, look, now);
    var ws := CreateWrites(cfg, s, look, now);
    if ws != [] {
      CommitOne(s, ws[0]);
      assert ws == [ws[0]];
    }
  }

  /** When a report leads to a new rjob: exactly when the gates are open, the dependencies ready and no
      rjob stands in the way. The new rjob is blank, counts no retries and carries the finding; nothing
      stored under another name changes either way. */
  lemma CreatedExactlyWhen(cfg: Config, s: Store, seen: Seen, last: Option<Time>, look: Look, now: Time)
    requires WellKeyed(s) && Enumerates(look.order, s.rjobs) && Unused(s, look.uid)
    requires look.observed.Report? && |look.observed.fingerprint| >= 12
    ensures var o := look.observed;
            var n, t := RJobName(o.fingerprint), CommitAll(s, React(cfg, s, seen, last, look, now).writes);
            && OnlyAt(s, t, n)
            && ((n in t.rjobs && t.rjobs[n].uid == look.uid) <==>
                (GatesOpen(cfg, seen, last, look, now) && look.ready && Unopposed(s, o.finding, o.fingerprint)))
            && (n in t.rjobs && t.rjobs[n].uid == look.uid ==>
                t.rjobs[n] == RJob(n, look.uid, now, look.source, o.fingerprint, o.finding, o.node, cfg.maxRetries,
                                   Blank, 0, "", None, None, "", "", "", "", false, None))
  {
    GatesDecide(cfg, s, seen, last, look, now);
    if GatesOpen(cfg, seen, last, look, now) {
      ReportEffect(cfg, s, look, now);
    }
  }

  /** An admitted report removes a Failed rjob of its fingerprint, whether or not a new one takes its place. */
  lemma FailedIsRemoved(cfg: Config, s: Store, seen: Seen, last: Option<Time>, look: Look, now: Time)
    requires WellKeyed(s) && Enumerates(look.order, s.rjobs) && look.observed.Report? && GatesOpen(cfg, seen, last, look, now)
    requires var n := RJobName(look.observed.fingerprint);
             n in s.rjobs && s.rjobs[n].fingerprint == look.observed.fingerprint && s.rjobs[n].phase == Failed
    ensures var n, t := RJobName(look.observed.fingerprint), CommitAll(s, React(cfg, s, seen, last, look, now).writes);
            n in t.rjobs ==> t.rjobs[n].uid == look.uid
  {
    var n := RJobName(look.observed.fingerprint);
    var mid := CommitAll(s, [Remove(n)]);
    var ws := CreateWrites(cfg, mid, look, now);
    assert React(cfg, s, seen, last, look, now).writes == [Remove(n)] + ws by {
      GatesDecide(cfg, s, seen, last, look, now);
      ReportCases(cfg, s, look, now);
    }
    CommitOne(s, Remove(n));
    CommitConcat(s, [Remove(n)], ws);
    if ws != [] {
      CommitOne(mid, ws[0]);
      assert ws == [ws[0]];
    }
  }

  /** The retry cap does not bound dispatches: the next report replaces a Failed rjob, whatever its count
      and cap, by a new incarnation whose count starts at zero. */
  lemma FailedStartsOver(cfg: Config, s: Store, seen: Seen, last: Option<Time>, look: Look, now: Time)
    requires WellKeyed(s) && Enumerates(look.order, s.rjobs) && Unused(s, look.uid)
    requires look.observed.Report? && GatesOpen(cfg, seen, last, look, now) && look.ready
    requires Unopposed(s, look.observed.finding, look.observed.fingerprint) && RJobName(look.observed.fingerprint) in s.rjobs
    ensures var n, t := RJobName(look.observed.fingerprint), CommitAll(s, React(cfg, s, seen, last, look, now).writes);
            && s.rjobs[n].phase == Failed && n in t.rjobs && t.rjobs[n].uid != s.rjobs[n].uid
            && t.rjobs[n].retryCount == 0 && t.rjobs[n].phase == Blank && t.rjobs[n].fingerprint == s.rjobs[n].fingerprint
  {
    CreatedExactlyWhen(cfg, s, seen, last, look, now);
  }

  lemma ReportEffect(cfg: Config, s: Store, look: Look, now: Time)
    requires WellKeyed(s) && Enumerates(look.order, s.rjobs) && Unused(s, look.uid)
    requires look.observed.Report? && |look.observed.fingerprint| >= 12
    ensures var o := look.observed;
            var n, t := RJobName(o.fingerprint), CommitAll(s, ReportWrites(cfg, s, look, now));
            && OnlyAt(s, t, n)
            && ((n in t.rjobs && t.rjobs[n].uid == look.uid) <==> (look.ready && Unopposed(s, o.finding, o.fingerprint)))
            && (n in t.rjobs && t.rjobs[n].uid == look.uid ==>
                t.rjobs[n] == NewRJob(cfg, o.finding, o.node, o.fingerprint, look.source, look.uid, now))
  {
    var fp := look.observed.fingerprint;
    var n := RJobName(fp);
    forall m | m in s.rjobs ensures m in look.order {
      assert m in multiset(look.order);
    }
    ReportCases(cfg, s, look, now);
    if n in s.rjobs && s.rjobs[n].fingerprint == fp {
      if s.rjobs[n].phase == Failed {
        FailedEffect(cfg, s, look, now);
      } else {
        SuppressedEffect(cfg, s, s.rjobs[n], now, look.merged);
      }
    } else {
      CreateEffect(cfg, s, look, now);
    }
  }

  lemma FailedEffect(cfg: Config, s: Store, look: Look, now: Time)
    requires look.observed.Report? && |look.observed.fingerprint| >= 12
    requires var n := RJobName(look.observed.fingerprint);
             n in s.rjobs && s.rjobs[n].fingerprint == look.observed.fingerprint && s.rjobs[n].phase == Failed
    requires forall n :: n in s.rjobs ==> n in look.order && s.rjobs[n].uid != look.uid
    ensures var o := look.observed;
            var n := RJobName(o.fingerprint);
            var t := CommitAll(s, [Remove(n)] + CreateWrites(cfg, CommitAll(s, [Remove(n)]), look, now));
            && OnlyAt(s, t, n)
            && ((n in t.rjobs && t.rjobs[n].uid == look.uid) <==> (look.ready && Unopposed(s, o.finding, o.fingerprint)))
            && (n in t.rjobs && t.rjobs[n].uid == look.uid ==>
                t.rjobs[n] == NewRJob(cfg, o.finding, o.node, o.fingerprint, look.source, look.uid, now))
  {
    var n := RJobName(look.observed.fingerprint);
    var mid := CommitAll(s, [Remove(n)]);
    CommitOne(s, Remove(n));
    CreateEffect(cfg, mid, look, now);
    CommitConcat(s, [Remove(n)], CreateWrites(cfg, mid, look, now));
  }

  lemma SuppressedEffect(cfg: Config, s: Store, r: RJob, now: Time, merged: bool)
    requires r.name in s.rjobs && s.rjobs[r.name] == r
    ensures var t := CommitAll(s, TombstoneWrites(cfg, r, now, merged));
            OnlyAt(s, t, r.name) && (r.name in t.rjobs ==> t.rjobs[r.name].uid == r.uid)
  {
    var ws := TombstoneWrites(cfg, r, now, merged);
    if ws != [] {
      CommitOne(s, ws[0]);
      assert ws == [ws[0]];
    }
  }

  // ---- A fingerprint already known ----

  /** What a report about its fingerprint makes of an rjob that is not Failed, or nothing when it goes. An
      unmerged tombstone has the merge recorded if its pull request is found merged now; otherwise it goes
      once its short time-to-live, a day by default, is over or if it has no completion time. */
  function Reported(cfg: Config, r: RJob, now: Time, merged: bool): Option<RJob> {
    if r.phase != Succeeded || r.prMerged then Some(r)
    else if r.sinkURL != "" && merged then Some(r.(prMerged := true, prMergedAt := Some(now)))
    else if r.completedAt.Some? && now < r.completedAt.value + UnmergedTTL(cfg) then Some(r)
    else None
  }

  lemma ReportedEffect(cfg: Config, s: Store, r: RJob, now: Time, merged: bool)
    requires r.name in s.rjobs && s.rjobs[r.name] == r
    ensures var t, r' := CommitAll(s, TombstoneWrites(cfg, r, now, merged)), Reported(cfg, r, now, merged);
            t == s.(rjobs := if r'.Some? then s.rjobs[r.name := r'.value] else s.rjobs - {r.name})
  {
    var ws := TombstoneWrites(cfg, r, now, merged);
    if ws != [] {
      CommitOne(s, ws[0]);
      assert ws == [ws[0]];
    } else {
      assert s.rjobs[r.name := r] == s.rjobs;
    }
  }

  /** A report about a fingerprint held by an rjob that is not Failed creates nothing and leaves every other
      rjob alone. */
  lemma KnownFingerprint(cfg: Config, s: Store, seen: Seen, last: Option<Time>, look: Look, now: Time)
    requires WellKeyed(s) && Enumerates(look.order, s.rjobs) && look.observed.Report? && GatesOpen(cfg, seen, last, look, now)
    requires var n := RJobName(look.observed.fingerprint);
             n in s.rjobs && s.rjobs[n].fingerprint == look.observed.fingerprint && s.rjobs[n].phase != Failed
    ensures var n := RJobName(look.observed.fingerprint);
            var r', t := Reported(cfg, s.rjobs[n], now, look.merged), CommitAll(s, React(cfg, s, seen, last, look, now).writes);
            t == s.(rjobs := if r'.Some? then s.rjobs[n := r'.value] else s.rjobs - {n})
  {
    var n := RJobName(look.observed.fingerprint);
    assert React(cfg, s, seen, last, look, now).writes == TombstoneWrites(cfg, s.rjobs[n], now, look.merged) by {
      GatesDecide(cfg, s, seen, last, look, now);
      ReportCases(cfg, s, look, now);
    }
    ReportedEffect(cfg, s, s.rjobs[n], now, look.merged);
  }

  // ---- Deletion of the source ----

  predicate Ended(p: Phase) {
    p == Succeeded || p == Failed || p == PermanentlyFailed || p == Cancelled
  }

  lemma {:induction false} CancelRemoves(cfg: Config, s: Store, rs: seq<RJob>)
    requires CancellableIn(s, rs)
    ensures forall n :: n in s.rjobs && Named(rs, n) ==> n !in CommitAll(s, CancelWrites(rs)).rjobs
    ensures CommitAll(s, CancelWrites(rs)).rjobs.Keys <= s.rjobs.Keys
    ensures CommitAll(s, CancelWrites(rs)).jobs == s.jobs && CommitAll(s, CancelWrites(rs)).dispatched == s.dispatched
  {
    if rs != [] {
      var front, last := rs[..|rs| - 1], rs[|rs| - 1];
      CancelFront(s, rs);
      CancelRemoves(cfg, s, front);
      CancelEnabled(cfg, s, 0, 0, front);
      var mid := CommitAll(s, CancelWrites(front));
      CancelOneEnabled(cfg, mid, 0, 0, last);
      CommitConcat(s, CancelWrites(front), [MarkCancelled(last.name), Remove(last.name)]);
      NamedFront(rs);
    }
  }

  /** When its source is deleted, an rjob that has not ended goes, and every other rjob stays as it is:
      tombstones and failures of the source, and whatever belongs to other sources. */
  lemma SourceDeletionCancels(cfg: Config, s: Store, seen: Seen, last: Option<Time>, look: Look, now: Time, n: string)
    requires WellKeyed(s) && Enumerates(look.order, s.rjobs) && look.observed.SourceDeleted? && n in s.rjobs
    ensures var r, t := s.rjobs[n], CommitAll(s, React(cfg, s, seen, last, look, now).writes);
            if r.source == look.source && !Ended(r.phase) then n !in t.rjobs else n in t.rjobs && t.rjobs[n] == r
  {
    var rs := Filter(CancelledBy(look.source), Listing(look.order, s.rjobs));
    CancelledAreNamed(s, look.source, look.order, n);
    CancelEffect(cfg, s, rs, n);
    DeletionWrites(cfg, s, seen, last, look, now);
    LiveOrEnded(s.rjobs[n].phase);
  }

  lemma DeletionWrites(cfg: Config, s: Store, seen: Seen, last: Option<Time>, look: Look, now: Time)
    requires look.observed.SourceDeleted?
    ensures React(cfg, s, seen, last, look, now).writes ==
            CancelWrites(Filter(CancelledBy(look.source), Listing(look.order, s.rjobs)))
  {
  }

  lemma LiveOrEnded(p: Phase)
    ensures Cancellable(p) <==> !Ended(p)
  {
  }

  lemma CancelEffect(cfg: Config, s: Store, rs: seq<RJob>, n: string)
    requires CancellableIn(s, rs) && n in s.rjobs
    ensures var t := CommitAll(s, CancelWrites(rs));
            if Named(rs, n) then n !in t.rjobs else n in t.rjobs && t.rjobs[n] == s.rjobs[n]
  {
    CancelRemoves(cfg, s, rs);
    CancelEnabled(cfg, s, 0, 0, rs);
  }

  lemma CancelledAreNamed(s: Store, source: Ref, order: seq<string>, n: string)
    requires WellKeyed(s) && Enumerates(order, s.rjobs) && n in s.rjobs
    ensures var rs := Filter(CancelledBy(source), Listing(order, s.rjobs));
            CancellableIn(s, rs) && (Named(rs, n) <==> s.rjobs[n].source == source && Cancellable(s.rjobs[n].phase))
  {
    FilteredListing(CancelledBy(source), order, s);
    var rs := Filter(CancelledBy(source), Listing(order, s.rjobs));
    assert s.rjobs[n] in rs <==> CancelledBy(source)(s.rjobs[n]);
  }
}
