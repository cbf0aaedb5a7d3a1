/** Fingerprints that are never investigated again: exactly which rjobs past Pending nothing moves any more,
    and which stops of a cancellation leave one behind. */
module Stuck {
  import opened Types
  import opened Seqs
  import opened Stores
  import opened Controller
  import opened BoundedMaps
  import opened Provider
  import opened Lifecycle
  import opened Evolution
  import opened Plans
  import opened Runs
  import opened Guarantees
  import opened Admissions
  import opened Retries
  import opened Groups
  import opened Staging

  /** Not even deleting the source moves it. */
  predicate Forever(p: Phase) {
    p == Cancelled || p == PermanentlyFailed
  }

  /** Cancelled but still there, permanently failed, suppressed, or dispatched with no Job to read. */
  ghost predicate IsStuck(s: Store, n: string) {
    n in s.rjobs &&
    (|| Forever(s.rjobs[n].phase) || s.rjobs[n].phase == Suppressed
     || (&& (s.rjobs[n].phase == Dispatched || s.rjobs[n].phase == Running)
         && |s.rjobs[n].fingerprint| >= 12 && JobName(s.rjobs[n].fingerprint) !in s.jobs))
  }

  /** As it was, but for labels and the pull request an agent may record. */
  predicate Unmoved(a: RJob, b: RJob) {
    b == a.(sinkURL := b.sinkURL, groupLabel := b.groupLabel, role := b.role)
  }

  /** The write cancels or removes `n`. */
  predicate Ends(w: Write, n: string) {
    w == Remove(n) || w == MarkCancelled(n)
  }

  /** Nothing but cancelling and removing moves a stuck rjob. */
  lemma WriteLeaves(cfg: Config, s: Store, now: Time, uid: UID, w: Write, n: string)
    requires WellKeyed(s) && Enabled(cfg, s, now, uid, w) && IsStuck(s, n) && !Ends(w, n)
    ensures var t := Commit(s, w); IsStuck(t, n) && Unmoved(s.rjobs[n], t.rjobs[n])
  {
    if w.CreateJob? {
      SameJobName(s.rjobs[w.job.rjobLabel].fingerprint, s.rjobs[n].fingerprint);
    }
  }

  lemma {:induction false} WritesLeave(cfg: Config, s: Store, now: Time, uid: UID, ws: seq<Write>, k: nat, n: string)
    requires KeyedThroughout(s, ws) && AllEnabled(cfg, s, now, uid, ws) && k <= |ws| && IsStuck(s, n)
    requires forall w :: w in ws ==> !Ends(w, n)
    ensures var t := CommitAll(s, ws[..k]); IsStuck(t, n) && Unmoved(s.rjobs[n], t.rjobs[n])
  {
    if k > 0 {
      var mid, w := CommitAll(s, ws[..k - 1]), ws[k - 1];
      WritesLeave(cfg, s, now, uid, ws, k - 1, n);
      assert Enabled(cfg, mid, now, uid, w) by {
        EnabledAt(cfg, s, now, uid, ws, k - 1);
      }
      assert w in ws && WellKeyed(mid);
      WriteLeaves(cfg, mid, now, uid, w, n);
      CommitStep(s, ws, k - 1);
    } else {
      assert ws[..0] == [];
    }
  }

  // ---- No reconcile ends it ----

  lemma PlanSpares(cfg: Config, s: Store, name: string, now: Time, view: View, n: string)
    requires IsStuck(s, n)
    ensures forall w :: w in Plan(cfg, s, name, now, view) ==> !Ends(w, n)
  {
    if name in s.rjobs {
      PendingNeverSyncs(cfg, s, s.rjobs[name], now, view);
      PendingKinds(cfg, s, s.rjobs[name], now, view);
    }
  }

  lemma {:induction false} CancelNames(rs: seq<RJob>, n: string)
    requires !Named(rs, n)
    ensures forall w :: w in CancelWrites(rs) ==> !Ends(w, n)
  {
    if rs != [] {
      NamedFront(rs);
      CancelNames(rs[..|rs| - 1], n);
    }
  }

  /** A provider ends it only when its source is deleted, and not even then if it is there for ever. */
  lemma ReactSpares(cfg: Config, s: Store, seen: Seen, last: Option<Time>, look: Look, now: Time, n: string)
    requires WellKeyed(s) && Enumerates(look.order, s.rjobs) && IsStuck(s, n)
    requires Forever(s.rjobs[n].phase) || !(look.observed.SourceDeleted? && look.source == s.rjobs[n].source)
    ensures forall w :: w in React(cfg, s, seen, last, look, now).writes ==> !Ends(w, n)
  {
    match look.observed
    case SourceDeleted =>
      DeletionWrites(cfg, s, seen, last, look, now);
      CancelledAreNamed(s, look.source, look.order, n);
      CancelNames(Filter(CancelledBy(look.source), Listing(look.order, s.rjobs)), n);
    case Report(_, _, _, _) =>
      GatesDecide(cfg, s, seen, last, look, now);
      if GatesOpen(cfg, seen, last, look, now) {
        ReportSpares(cfg, s, look, now, n);
      }
    case _ =>
  }

  lemma ReportSpares(cfg: Config, s: Store, look: Look, now: Time, n: string)
    requires WellKeyed(s) && Enumerates(look.order, s.rjobs) && IsStuck(s, n)
    requires look.observed.Report? && |look.observed.fingerprint| >= 12
    ensures forall w :: w in ReportWrites(cfg, s, look, now) ==> !Ends(w, n)
  {
    ReportCases(cfg, s, look, now);
  }

  /** The step deletes the source. */
  predicate DeletesSource(step: Step, source: Ref) {
    step.Provide? && step.look.observed.SourceDeleted? && step.look.source == source
  }

  lemma StepSpares(cfg: Config, env: Env, s: State, step: Step, n: string)
    requires Inv(cfg, env, s) && Legal(cfg, env, s, step) && IsStuck(s.store, n)
    requires Forever(s.store.rjobs[n].phase) || !DeletesSource(step, s.store.rjobs[n].source)
    ensures forall w :: w in WritesOf(cfg, s, step) ==> !Ends(w, n)
  {
    match step
    case Control(name, view, _) =>
      PlanSpares(cfg, s.store, name, s.now, view, n);
    case Provide(p, look, origin, _) =>
      PerceivedKeeps(s, look, origin);
      ReactSpares(cfg, s.store, MemoryOf(cfg, s, p), s.lastAllowed, Perceived(s, look, origin), s.now, n);
    case _ =>
  }

  lemma ReconcileLeaves(cfg: Config, env: Env, s: State, step: Step, n: string)
    requires Inv(cfg, env, s) && Legal(cfg, env, s, step) && IsStuck(s.store, n) && (step.Control? || step.Provide?)
    requires forall w :: w in WritesOf(cfg, s, step) ==> !Ends(w, n)
    ensures IsStuck(Next(cfg, s, step).store, n) && Unmoved(s.store.rjobs[n], Next(cfg, s, step).store.rjobs[n])
  {
    var ws := WritesOf(cfg, s, step);
    StepEnabled(cfg, env, s, step);
    StaysKeyed(cfg, env, s.store, s.now, s.nextUID, ws);
    StepStore(cfg, s, step);
    var k :| 0 <= k <= |ws| && Next(cfg, s, step).store == CommitAll(s.store, ws[..k]);
    WritesLeave(cfg, s.store, s.now, s.nextUID, ws, k, n);
  }

  lemma ElsewiseLeaves(cfg: Config, s: State, step: Step, n: string)
    requires IsStuck(s.store, n) && !step.Control? && !step.Provide?
    ensures IsStuck(Next(cfg, s, step).store, n) && Unmoved(s.store.rjobs[n], Next(cfg, s, step).store.rjobs[n])
  {
  }

  lemma StepLeaves(cfg: Config, env: Env, s: State, step: Step, n: string)
    requires Inv(cfg, env, s) && Legal(cfg, env, s, step) && IsStuck(s.store, n)
    requires Forever(s.store.rjobs[n].phase) || !DeletesSource(step, s.store.rjobs[n].source)
    ensures IsStuck(Next(cfg, s, step).store, n) && Unmoved(s.store.rjobs[n], Next(cfg, s, step).store.rjobs[n])
  {
    if step.Control? || step.Provide? {
      StepSpares(cfg, env, s, step, n);
      ReconcileLeaves(cfg, env, s, step, n);
    } else {
      ElsewiseLeaves(cfg, s, step, n);
    }
  }

  predicate SourceStays(steps: seq<Step>, source: Ref) {
    forall i :: 0 <= i < |steps| ==> !DeletesSource(steps[i], source)
  }

  lemma {:induction false} RunLeaves(cfg: Config, env: Env, s: State, steps: seq<Step>, n: string)
    requires Inv(cfg, env, s) && LegalRun(cfg, env, s, steps) && IsStuck(s.store, n)
    requires Forever(s.store.rjobs[n].phase) || SourceStays(steps, s.store.rjobs[n].source)
    ensures IsStuck(Run(cfg, s, steps).store, n) && Unmoved(s.store.rjobs[n], Run(cfg, s, steps).store.rjobs[n])
    decreases |steps|
  {
    if steps != [] {
      StepLeaves(cfg, env, s, steps[0], n);
      StepKeepsInv(cfg, env, s, steps[0]);
      assert SourceStays(steps, s.store.rjobs[n].source) ==> SourceStays(steps[1..], s.store.rjobs[n].source) by {
        assert forall i :: 0 <= i < |steps| - 1 ==> steps[1..][i] == steps[i + 1];
      }
      RunLeaves(cfg, env, Next(cfg, s, steps[0]), steps[1..], n);
    }
  }

  /** A stuck fingerprint stays stuck. In every run a Cancelled or permanently failed rjob is still there,
      in its phase, as the only rjob of its fingerprint and without a further Job; so is, until its source
      is deleted, a suppressed one, and a Dispatched or Running one whose Job was collected. */
  lemma StuckForGood(cfg: Config, env: Env, s: State, steps: seq<Step>, n: string)
    requires Inv(cfg, env, s) && LegalRun(cfg, env, s, steps) && IsStuck(s.store, n)
    requires Forever(s.store.rjobs[n].phase) || SourceStays(steps, s.store.rjobs[n].source)
    ensures var r, t := s.store.rjobs[n], Run(cfg, s, steps).store;
            && n in t.rjobs && t.rjobs[n].uid == r.uid && t.rjobs[n].phase == r.phase && IsStuck(t, n)
            && NoJobSince(t, |s.store.dispatched|, r.uid)
            && forall m :: m in t.rjobs && t.rjobs[m].fingerprint == r.fingerprint ==> m == n
  {
    var r, t := s.store.rjobs[n], Run(cfg, s, steps).store;
    assert IsStuck(t, n) && Unmoved(r, t.rjobs[n]) by {
      RunLeaves(cfg, env, s, steps, n);
    }
    assert NoJobSince(t, |s.store.dispatched|, r.uid) by {
      StuckMakesNoJob(cfg, env, s, steps, n);
    }
    assert WellKeyed(t) by {
      RunKeepsInv(cfg, env, s, steps);
    }
  }

  lemma StuckMakesNoJob(cfg: Config, env: Env, s: State, steps: seq<Step>, n: string)
    requires Inv(cfg, env, s) && LegalRun(cfg, env, s, steps) && IsStuck(s.store, n)
    ensures NoJobSince(Run(cfg, s, steps).store, |s.store.dispatched|, s.store.rjobs[n].uid)
  {
    StoredFate(cfg, env, s, n);
    NoJobAfterPending(cfg, env, s, steps, s.now, s.store.rjobs[n], |s.store.dispatched|);
  }

  // ---- Exactly which ----

  /** Some run that keeps the source takes the rjob out of its phase or removes it. */
  ghost predicate Movable(cfg: Config, env: Env, s: State, n: string)
    requires n in s.store.rjobs
  {
    exists steps :: LegalRun(cfg, env, s, steps) && SourceStays(steps, s.store.rjobs[n].source) && Leaves(s.store, Run(cfg, s, steps).store, n)
  }

  predicate Leaves(s: Store, t: Store, n: string)
    requires n in s.rjobs
  {
    n in t.rjobs && t.rjobs[n].uid == s.rjobs[n].uid ==> t.rjobs[n].phase != s.rjobs[n].phase
  }

  lemma MovedInTwo(cfg: Config, env: Env, s: State, n: string, one: Step, two: Step)
    requires n in s.store.rjobs && Legal(cfg, env, s, one) && Legal(cfg, env, Next(cfg, s, one), two)
    requires !one.Provide? && (two.Provide? ==> !two.look.observed.SourceDeleted?)
    requires Leaves(s.store, Next(cfg, Next(cfg, s, one), two).store, n)
    ensures Movable(cfg, env, s, n)
  {
    TwoSteps(cfg, env, s, one, two);
    assert SourceStays([one, two], s.store.rjobs[n].source);
  }

  /** A Succeeded rjob is removed once its time has come. */
  lemma SucceededGoes(cfg: Config, env: Env, s: State, n: string)
    requires Inv(cfg, env, s) && n in s.store.rjobs && s.store.rjobs[n].phase == Succeeded
    ensures Movable(cfg, env, s, n)
  {
    assert s.store.rjobs[n].completedAt.Some? by {
      assert Sound(cfg, s.store.rjobs[n], s.now);
    }
    var deadline := Deadline(cfg, s.store.rjobs[n]);
    var late := Tick(if deadline > s.now then deadline - s.now else 0);
    var mid := Next(cfg, s, late);
    assert mid.store == s.store && mid.now >= deadline;
    MayControl(cfg, env, mid, n, 1);
    Expires(cfg, mid, n);
    MovedInTwo(cfg, env, s, n, late, Control(n, ViewNow(mid), 1));
  }

  lemma Expires(cfg: Config, s: State, n: string)
    requires n in s.store.rjobs && s.store.rjobs[n].phase == Succeeded && s.store.rjobs[n].completedAt.Some?
    requires s.now >= Deadline(cfg, s.store.rjobs[n])
    ensures n !in Next(cfg, s, Control(n, ViewNow(s), 1)).store.rjobs
  {
    ControlNext(cfg, s, n, ViewNow(s), 1);
    ExpiredPlan(cfg, s.store, n, s.now, ViewNow(s));
  }

  lemma ExpiredPlan(cfg: Config, s: Store, n: string, now: Time, view: View)
    requires n in s.rjobs && s.rjobs[n].phase == Succeeded && s.rjobs[n].completedAt.Some? && now >= Deadline(cfg, s.rjobs[n])
    ensures n !in CommitAll(s, Prefix(Plan(cfg, s, n, now, view), 1)).rjobs
  {
    var plan := Plan(cfg, s, n, now, view);
    assert plan == [Remove(n)];
    OnlyRemoval(s, n);
  }

  lemma OnlyRemoval(s: Store, n: string)
    ensures n !in CommitAll(s, Prefix([Remove(n)], 1)).rjobs
  {
    assert Prefix([Remove(n)], 1) == [Remove(n)];
    CommitOne(s, Remove(n));
  }

  /** An rjob with a Job ends when the Job does. */
  lemma DispatchedGoes(cfg: Config, env: Env, s: State, n: string)
    requires Inv(cfg, env, s) && n in s.store.rjobs && (s.store.rjobs[n].phase == Dispatched || s.store.rjobs[n].phase == Running)
    requires JobName(s.store.rjobs[n].fingerprint) in s.store.jobs
    ensures Movable(cfg, env, s, n)
  {
    var done := JobProgress(JobName(s.store.rjobs[n].fingerprint), 0, 1, 0);
    var mid := Next(cfg, s, done);
    assert Legal(cfg, env, s, done);
    StepKeepsInv(cfg, env, s, done);
    MayControl(cfg, env, mid, n, 1);
    EndsWithJob(cfg, mid, n);
    MovedInTwo(cfg, env, s, n, done, Control(n, ViewNow(mid), 1));
  }

  lemma EndsWithJob(cfg: Config, s: State, n: string)
    requires WellKeyed(s.store) && n in s.store.rjobs && (s.store.rjobs[n].phase == Dispatched || s.store.rjobs[n].phase == Running)
    requires JobName(s.store.rjobs[n].fingerprint) in s.store.jobs && s.store.jobs[JobName(s.store.rjobs[n].fingerprint)].succeeded == 1
    ensures var t := Next(cfg, s, Control(n, ViewNow(s), 1)).store; n in t.rjobs && t.rjobs[n].phase == Succeeded
  {
    StepWithSync(cfg, s, n, ViewNow(s), 1);
  }

  /** The next report of the finding. */
  ghost function ReportAgain(s: State, r: RJob): Look {
    Look(r.source, Report(r.finding.(chainDepth := 0), "", r.fingerprint, true), Enumerated(s.store.rjobs.Keys), false, true, false, "", s.nextUID)
  }

  /** A Failed rjob is removed by it. */
  lemma FailedGoes(cfg: Config, env: Env, s: State, n: string)
    requires Inv(cfg, env, s) && n in s.store.rjobs && s.store.rjobs[n].phase == Failed
    ensures Movable(cfg, env, s, n)
  {
    var mid, two := Next(cfg, s, Restart), Provide(0, ReportAgain(s, s.store.rjobs[n]), None, 1);
    assert mid.store == s.store && mid.nextUID == s.nextUID && mid.memory == map[];
    ReportIsLegal(cfg, env, mid, n);
    RemovedByReport(cfg, mid, n);
    MovedInTwo(cfg, env, s, n, Restart, two);
  }

  lemma ReportIsLegal(cfg: Config, env: Env, s: State, n: string)
    requires n in s.store.rjobs && s.memory == map[]
    ensures Legal(cfg, env, s, Provide(0, ReportAgain(s, s.store.rjobs[n]), None, 1))
  {
    assert |Cleaned(MemoryOf(cfg, s, 0), s.now).data| == 0;
  }

  lemma RemovedByReport(cfg: Config, s: State, n: string)
    requires WellKeyed(s.store) && n in s.store.rjobs && s.store.rjobs[n].phase == Failed
    ensures n !in Next(cfg, s, Provide(0, ReportAgain(s, s.store.rjobs[n]), None, 1)).store.rjobs
  {
    ReportRemoves(cfg, s, n, MemoryOf(cfg, s, 0));
    assert Perceived(s, ReportAgain(s, s.store.rjobs[n]), None) == ReportAgain(s, s.store.rjobs[n]);
  }

  lemma ReportRemoves(cfg: Config, s: State, n: string, seen: Seen)
    requires WellKeyed(s.store) && n in s.store.rjobs && s.store.rjobs[n].phase == Failed
    ensures var ws := React(cfg, s.store, seen, s.lastAllowed, ReportAgain(s, s.store.rjobs[n]), s.now).writes;
            CommitAll(s.store, Prefix(ws, 1)) == Commit(s.store, Remove(n))
  {
    var look := ReportAgain(s, s.store.rjobs[n]);
    GatesDecide(cfg, s.store, seen, s.lastAllowed, look, s.now);
    ReportCases(cfg, s.store, look, s.now);
    var ws := ReportWrites(cfg, s.store, look, s.now);
    assert Prefix(ws, 1) == [Remove(n)];
    CommitOne(s.store, Remove(n));
  }

  /** Which rjobs past Pending are stuck: some run that keeps the source moves or removes the rjob if and
      only if it is none of permanently failed, Cancelled, suppressed, or dispatched without a Job. */
  lemma MovableIffNotStuck(cfg: Config, env: Env, s: State, n: string)
    requires Inv(cfg, env, s) && n in s.store.rjobs && !Waiting(s.store.rjobs[n].phase)
    ensures Movable(cfg, env, s, n) <==> !IsStuck(s.store, n)
  {
    if IsStuck(s.store, n) {
      forall steps | LegalRun(cfg, env, s, steps) && SourceStays(steps, s.store.rjobs[n].source)
        ensures !Leaves(s.store, Run(cfg, s, steps).store, n)
      {
        StuckForGood(cfg, env, s, steps, n);
      }
    } else {
      match s.store.rjobs[n].phase
      case Succeeded =>
        SucceededGoes(cfg, env, s, n);
      case Failed =>
        FailedGoes(cfg, env, s, n);
      case _ =>
        DispatchedGoes(cfg, env, s, n);
    }
  }

  // ---- Cancellations that stop halfway ----

  lemma {:induction false} CancelLength(rs: seq<RJob>)
    ensures |CancelWrites(rs)| == 2 * |rs|
  {
    if rs != [] {
      CancelLength(rs[..|rs| - 1]);
    }
  }

  /** The rjob is there and Cancelled. */
  predicate LeftCancelled(s: Store, n: string) {
    n in s.rjobs && s.rjobs[n].phase == Cancelled
  }

  /** A cancellation stopped between the two writes for an rjob leaves that one Cancelled, and no other. */
  lemma {:induction false} HalfwayCancelled(cfg: Config, s: Store, rs: seq<RJob>, stop: nat, n: string)
    requires CancellableIn(s, rs) && n in s.rjobs && s.rjobs[n].phase != Cancelled
    ensures LeftCancelled(CommitAll(s, Prefix(CancelWrites(rs), stop)), n) <==>
            stop % 2 == 1 && stop < 2 * |rs| && rs[stop / 2].name == n
  {
    if rs == [] {
      assert Prefix(CancelWrites(rs), stop) == [];
    } else {
      var front, last := rs[..|rs| - 1], rs[|rs| - 1];
      CancelFront(s, rs);
      CancelledSoFar(rs, stop);
      if stop <= 2 * |front| {
        HalfwayCancelled(cfg, s, front, stop, n);
      } else if stop == 2 * |front| + 1 {
        CommitConcat(s, CancelWrites(front), [MarkCancelled(last.name)]);
        LastMarked(cfg, s, front, last, n);
      } else {
        CancelEffect(cfg, s, rs, n);
      }
    }
  }

  lemma CancelledSoFar(rs: seq<RJob>, stop: nat)
    requires rs != []
    ensures var front, last := rs[..|rs| - 1], rs[|rs| - 1];
            Prefix(CancelWrites(rs), stop) ==
            if stop <= 2 * |front| then Prefix(CancelWrites(front), stop)
            else if stop == 2 * |front| + 1 then CancelWrites(front) + [MarkCancelled(last.name)]
            else CancelWrites(rs)
  {
    CancelLength(rs);
    CancelLength(rs[..|rs| - 1]);
  }

  lemma LastMarked(cfg: Config, s: Store, front: seq<RJob>, last: RJob, n: string)
    requires CancellableIn(s, front) && !Named(front, last.name) && last.name in s.rjobs && n in s.rjobs && s.rjobs[n].phase != Cancelled
    ensures LeftCancelled(CommitAll(CommitAll(s, CancelWrites(front)), [MarkCancelled(last.name)]), n) <==> n == last.name
  {
    var mid := CommitAll(s, CancelWrites(front));
    CommitOne(mid, MarkCancelled(last.name));
    CancelEffect(cfg, s, front, n);
    CancelEffect(cfg, s, front, last.name);
  }

  /** After the deletion of a source, stopped anywhere, an rjob that was not Cancelled before is left behind
      Cancelled if and only if the stop fell between its two writes. */
  lemma StoppedCancellationSticksIff(cfg: Config, env: Env, s: State, p: nat, look: Look, origin: Option<Watch>, stop: nat, n: string)
    requires Inv(cfg, env, s) && Legal(cfg, env, s, Provide(p, look, origin, stop)) && look.observed.SourceDeleted?
    requires n in s.store.rjobs && s.store.rjobs[n].phase != Cancelled
    ensures var rs := Filter(CancelledBy(look.source), Listing(look.order, s.store.rjobs));
            LeftCancelled(Next(cfg, s, Provide(p, look, origin, stop)).store, n) <==>
            stop % 2 == 1 && stop < 2 * |rs| && rs[stop / 2].name == n
  {
    var rs := Filter(CancelledBy(look.source), Listing(look.order, s.store.rjobs));
    DeletionWrites(cfg, s.store, MemoryOf(cfg, s, p), s.lastAllowed, look, s.now);
    CancelledAreNamed(s.store, look.source, look.order, n);
    HalfwayCancelled(cfg, s.store, rs, stop, n);
    DeletionStore(cfg, s, p, look, origin, stop, rs);
  }

  lemma DeletionStore(cfg: Config, s: State, p: nat, look: Look, origin: Option<Watch>, stop: nat, rs: seq<RJob>)
    requires look.observed.SourceDeleted? && React(cfg, s.store, MemoryOf(cfg, s, p), s.lastAllowed, look, s.now).writes == CancelWrites(rs)
    ensures Next(cfg, s, Provide(p, look, origin, stop)).store == CommitAll(s.store, Prefix(CancelWrites(rs), stop))
  {
  }
}
