/** Retry accounting: what moves the retry count and what the cap decides. */
module Retries {
  import opened Types
  import opened Rules
  import opened Stores
  import opened Controller
  import opened Lifecycle
  import opened Evolution
  import opened Runs
  import opened Guarantees
  import opened Capacity

  predicate Syncs(w: Write, n: string) {
    w.SyncFrom? && w.name == n
  }

  // ---- Only a sync moves the count ----

  lemma WriteKeepsRetries(cfg: Config, s: Store, now: Time, uid: UID, w: Write, n: string, r: RJob)
    requires Enabled(cfg, s, now, uid, w) && !Syncs(w, n) && r.uid < uid
    requires n in s.rjobs && s.rjobs[n].uid == r.uid ==> s.rjobs[n].retryCount == r.retryCount
    ensures var t := Commit(s, w); n in t.rjobs && t.rjobs[n].uid == r.uid ==> t.rjobs[n].retryCount == r.retryCount
  {
    if n in Commit(s, w).rjobs && n !in s.rjobs {
      WriteAdds(cfg, s, now, uid, w, n);
    }
  }

  lemma {:induction false} WritesKeepRetries(cfg: Config, s: Store, now: Time, uid: UID, ws: seq<Write>, k: nat, n: string)
    requires AllEnabled(cfg, s, now, uid, ws) && k <= |ws| && n in s.rjobs && s.rjobs[n].uid < uid
    requires forall w :: w in ws ==> !Syncs(w, n)
    ensures var t := CommitAll(s, ws[..k]);
            n in t.rjobs && t.rjobs[n].uid == s.rjobs[n].uid ==> t.rjobs[n].retryCount == s.rjobs[n].retryCount
  {
    if k > 0 {
      WritesKeepRetries(cfg, s, now, uid, ws, k - 1, n);
      CommitStep(s, ws, k - 1);
      EnabledAt(cfg, s, now, uid, ws, k - 1);
      var mid, w := CommitAll(s, ws[..k - 1]), ws[k - 1];
      assert w in ws;
      WriteKeepsRetries(cfg, mid, now, uid, w, n, s.rjobs[n]);
    } else {
      assert ws[..0] == [];
    }
  }

  lemma LeadNeverSyncs(cfg: Config, s: Store, r: RJob, g: Group, now: Time, view: View)
    ensures forall w :: w in LeadWrites(cfg, s, r, g, now, view) ==> !w.SyncFrom? && !w.Remove?
  {
    SuppressKinds(Members(s, r, g, view), GroupIDFor(r, view.nextGroup));
    DispatchNeverSyncs(cfg, s, r, g.findings, now, view.injected);
  }

  lemma DispatchNeverSyncs(cfg: Config, s: Store, r: RJob, findings: seq<Finding>, now: Time, injected: bool)
    ensures forall w :: w in DispatchWrites(cfg, s, r, findings, now, injected) ==> !w.SyncFrom? && !w.Remove?
  {
  }

  lemma PendingNeverSyncs(cfg: Config, s: Store, r: RJob, now: Time, view: View)
    ensures forall w :: w in PendingWrites(cfg, s, r, now, view) ==> !w.SyncFrom? && !w.Remove?
  {
    match RouteOf(cfg, s, r, now, view)
    case Hold =>
    case Lead(g) =>
      LeadNeverSyncs(cfg, s, r, g, now, view);
    case Recover =>
      DispatchNeverSyncs(cfg, s, r, Recovered(s, r, view), now, view.injected);
    case Solo =>
      DispatchNeverSyncs(cfg, s, r, [], now, view.injected);
  }

  /** A reconcile syncs its own rjob, from the Job named after it, and does nothing else. */
  lemma PlanSyncs(cfg: Config, s: Store, m: string, now: Time, view: View)
    requires WellKeyed(s) && ValidView(s, view) && m in s.rjobs
    ensures var r, plan := s.rjobs[m], Plan(cfg, s, m, now, view);
            if Live(r.phase) && r.phase != Blank && JobName(r.fingerprint) in s.jobs
            then plan == [SyncFrom(m, s.jobs[JobName(r.fingerprint)], now)]
            else forall w :: w in plan ==> !w.SyncFrom?
  {
    OwnedIsJob(s, m, view);
    PendingNeverSyncs(cfg, s, s.rjobs[m], now, view);
  }

  /** The step syncs the rjob from a Job that is exhausted. */
  predicate FindsExhausted(s: State, step: Step, n: string) {
    && step.Control? && step.name == n && step.stop >= 1
    && n in s.store.rjobs && Live(s.store.rjobs[n].phase) && s.store.rjobs[n].phase != Blank
    && |s.store.rjobs[n].fingerprint| >= 12 && JobName(s.store.rjobs[n].fingerprint) in s.store.jobs
    && var job := s.store.jobs[JobName(s.store.rjobs[n].fingerprint)]; job.succeeded <= 0 && Exhausted(job)
  }

  lemma StepWithoutSync(cfg: Config, env: Env, s: State, step: Step, n: string)
    requires Inv(cfg, env, s) && Legal(cfg, env, s, step) && n in s.store.rjobs
    requires forall w :: w in WritesOf(cfg, s, step) ==> !Syncs(w, n)
    ensures var r, t := s.store.rjobs[n], Next(cfg, s, step).store; Present(t, r) ==> t.rjobs[n].retryCount == r.retryCount
  {
    if step.Control? || step.Provide? {
      StepEnabled(cfg, env, s, step);
      StepStore(cfg, s, step);
      var ws := WritesOf(cfg, s, step);
      var k :| 0 <= k <= |ws| && Next(cfg, s, step).store == CommitAll(s.store, ws[..k]);
      WritesKeepRetries(cfg, s.store, s.now, s.nextUID, ws, k, n);
    }
  }

  lemma StepWithSync(cfg: Config, s: State, n: string, view: View, stop: nat)
    requires WellKeyed(s.store) && ValidView(s.store, view) && n in s.store.rjobs
    requires Live(s.store.rjobs[n].phase) && s.store.rjobs[n].phase != Blank && JobName(s.store.rjobs[n].fingerprint) in s.store.jobs
    ensures var r, t := s.store.rjobs[n], Next(cfg, s, Control(n, view, stop)).store;
            n in t.rjobs && t.rjobs[n] == if stop == 0 then r else Synced(r, s.store.jobs[JobName(r.fingerprint)], s.now)
  {
    var w := SyncFrom(n, s.store.jobs[JobName(s.store.rjobs[n].fingerprint)], s.now);
    PlanSyncs(cfg, s.store, n, s.now, view);
    assert [w][..0] == [] && [w][..1] == [w];
    assert CommitAll(s.store, []) == s.store;
    assert CommitAll(s.store, [w]) == Commit(s.store, w);
  }

  /** The step reconciles the rjob while a Job to sync from exists. */
  predicate CanSync(s: State, step: Step, n: string)
    requires step.Control?
  {
    && step.name == n && n in s.store.rjobs && Live(s.store.rjobs[n].phase) && s.store.rjobs[n].phase != Blank
    && |s.store.rjobs[n].fingerprint| >= 12 && JobName(s.store.rjobs[n].fingerprint) in s.store.jobs
  }

  lemma OtherwiseNoSync(cfg: Config, s: State, step: Step, n: string)
    requires WellKeyed(s.store) && (step.Control? ==> ValidView(s.store, step.view) && !CanSync(s, step, n))
    ensures forall w :: w in WritesOf(cfg, s, step) ==> !Syncs(w, n)
  {
    if step.Control? && step.name in s.store.rjobs {
      PlanSyncs(cfg, s.store, step.name, s.now, step.view);
    }
    if step.Provide? {
      ProviderKinds(cfg, s.store, MemoryOf(cfg, s, step.p), s.lastAllowed, Perceived(s, step.look, step.origin), s.now);
    }
  }

  /** In every step, the retry count of an rjob that stays moves by one exactly when the step finds
      its Job exhausted. */
  lemma RetriesCountExhaustedJobs(cfg: Config, env: Env, s: State, step: Step, n: string)
    requires Inv(cfg, env, s) && Legal(cfg, env, s, step) && n in s.store.rjobs
    ensures var r, t := s.store.rjobs[n], Next(cfg, s, step).store;
            Present(t, r) ==> t.rjobs[n].retryCount == r.retryCount + if FindsExhausted(s, step, n) then 1 else 0
  {
    if step.Control? && CanSync(s, step, n) {
      StepWithSync(cfg, s, n, step.view, step.stop);
    } else {
      OtherwiseNoSync(cfg, s, step, n);
      StepWithoutSync(cfg, env, s, step, n);
    }
  }

  /** In every reachable state an exhausted Job makes its rjob permanently failed exactly when the
      effective cap is one. With any other cap the rjob is Failed, which no reconcile of the controller
      leaves; the documented retry of a Failed rjob below the cap does not exist. */
  lemma ExhaustionIsPermanentIff(cfg: Config, env: Env, s: State, step: Step, n: string)
    requires Inv(cfg, env, s) && Legal(cfg, env, s, step) && FindsExhausted(s, step, n)
    ensures var t := Next(cfg, s, step).store;
            && n in t.rjobs && (t.rjobs[n].phase == PermanentlyFailed || t.rjobs[n].phase == Failed)
            && (t.rjobs[n].phase == PermanentlyFailed <==> EffectiveMaxRetries(s.store.rjobs[n]) == 1)
  {
    var r := s.store.rjobs[n];
    assert r.retryCount == 0 by {
      assert Sound(cfg, r, s.now);
    }
    StepWithSync(cfg, s, n, step.view, step.stop);
    ExhaustionFails(r, s.store.jobs[JobName(r.fingerprint)], s.now);
  }

  lemma ExhaustionFails(r: RJob, job: Job, now: Time)
    requires r.phase != Failed && r.retryCount == 0 && job.succeeded <= 0 && Exhausted(job)
    ensures Synced(r, job, now).phase == if EffectiveMaxRetries(r) == 1 then PermanentlyFailed else Failed
  {
  }
}
