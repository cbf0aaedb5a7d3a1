/** Jobs that outlive their rjob. A new incarnation that finds a Job under its name takes on that Job's
    status instead of being dispatched. */
module Leftovers {
  import opened Types
  import opened Stores
  import opened Controller
  import opened Lifecycle
  import opened Runs
  import opened Guarantees
  import opened Capacity
  import opened Conservation
  import opened Retries

  /** Pending, with a Job under its name that another incarnation left behind. */
  predicate Leftover(s: Store, name: string) {
    && name in s.rjobs && s.rjobs[name].phase == Pending && |s.rjobs[name].fingerprint| >= 12
    && JobName(s.rjobs[name].fingerprint) in s.jobs
    && s.jobs[JobName(s.rjobs[name].fingerprint)].ownerUID != s.rjobs[name].uid
  }

  /** Its next reconcile copies that Job's status onto it and creates no Job, and neither does anything
      else in any later run: the incarnation is never dispatched. */
  lemma LeftoverIsTakenOn(cfg: Config, env: Env, s: State, name: string, view: View, stop: nat, steps: seq<Step>)
    requires Inv(cfg, env, s) && Leftover(s.store, name) && Legal(cfg, env, s, Control(name, view, stop)) && stop >= 1
    requires LegalRun(cfg, env, Next(cfg, s, Control(name, view, stop)), steps)
    ensures var r, t := s.store.rjobs[name], Next(cfg, s, Control(name, view, stop));
            && name in t.store.rjobs && t.store.rjobs[name] == Synced(r, s.store.jobs[JobName(r.fingerprint)], s.now)
            && t.store.rjobs[name].phase != Pending
            && NoJobSince(Run(cfg, t, steps).store, |s.store.dispatched|, r.uid)
  {
    var t := Next(cfg, s, Control(name, view, stop));
    StepWithSync(cfg, s, name, view, stop);
    SyncLeavesPending(s.store.rjobs[name], s.store.jobs[JobName(s.store.rjobs[name].fingerprint)], s.now);
    assert t.store.dispatched == s.store.dispatched by {
      SyncDispatchesNothing(cfg, s, name, view, stop);
    }
    StepKeepsInv(cfg, env, s, Control(name, view, stop));
    NoMoreJobs(cfg, env, t, steps, name);
  }

  lemma SyncLeavesPending(r: RJob, job: Job, now: Time)
    ensures !Waiting(Synced(r, job, now).phase) && Synced(r, job, now).uid == r.uid
  {
  }

  lemma NoMoreJobs(cfg: Config, env: Env, s: State, steps: seq<Step>, n: string)
    requires Inv(cfg, env, s) && LegalRun(cfg, env, s, steps) && n in s.store.rjobs && !Waiting(s.store.rjobs[n].phase)
    ensures NoJobSince(Run(cfg, s, steps).store, |s.store.dispatched|, s.store.rjobs[n].uid)
  {
    StoredFate(cfg, env, s, n);
    NoJobAfterPending(cfg, env, s, steps, s.now, s.store.rjobs[n], |s.store.dispatched|);
  }

  lemma SyncDispatchesNothing(cfg: Config, s: State, name: string, view: View, stop: nat)
    requires WellKeyed(s.store) && ValidView(s.store, view) && Leftover(s.store, name)
    ensures Next(cfg, s, Control(name, view, stop)).store.dispatched == s.store.dispatched
  {
    PlanSyncs(cfg, s.store, name, s.now, view);
    JobsUntouched(s.store, Prefix(Plan(cfg, s.store, name, s.now, view), stop));
  }

  /** A reconcile that nothing else holds back creates a Job if and only if none of its name exists. */
  lemma DispatchedIffNoneLeft(cfg: Config, s: Store, name: string, now: Time, view: View, stop: nat)
    requires WellKeyed(s) && ValidView(s, view) && name in s.rjobs && s.rjobs[name].phase == Pending
    requires var route := RouteOf(cfg, s, s.rjobs[name], now, view); route != Hold && (route.Lead? || !Limited(cfg, s, now, view))
    requires !Quashed(cfg, view.injected) && stop >= |Plan(cfg, s, name, now, view)|
    ensures (exists j :: j in CommitAll(s, Prefix(Plan(cfg, s, name, now, view), stop)).jobs && j !in s.jobs) <==>
            JobName(s.rjobs[name].fingerprint) !in s.jobs
  {
    var j := JobName(s.rjobs[name].fingerprint);
    OwnedIsJob(s, name, view);
    PendingShape(cfg, s, s.rjobs[name], now, view);
    ControlJobs(cfg, s, name, now, view, stop);
    var jobs := CommitAll(s, Prefix(Plan(cfg, s, name, now, view), stop)).jobs;
    assert j !in s.jobs ==> j in jobs;
  }
}
