/** What one complete controller reconcile leaves in the store, said of the objects' own fields. */
module Outcomes {
  import opened Types
  import opened Rules
  import opened Deadlock
  import opened Stores
  import opened Controller
  import opened Lifecycle
  import opened Plans
  import opened Retries
  import opened Conservation

  // ---- A Job to read ----

  /** More pods failed than the back-off limit allows, six by default. */
  predicate OverLimit(job: Job) {
    job.failed > if job.backoffLimit.Some? then job.backoffLimit.value else 6
  }

  /** The phase a Job's counters give: success first, then exhaustion, then activity. Exhaustion costs the
      rjob a retry and is permanent once there is none left of its cap, three by default. */
  function PhaseBy(job: Job, r: RJob): Phase {
    if job.succeeded > 0 then Succeeded
    else if OverLimit(job) then
      if r.retryCount + 1 >= (if r.maxRetries > 0 then r.maxRetries else 3) then PermanentlyFailed else Failed
    else if job.active > 0 then Running
    else Dispatched
  }

  /** The rjob with its Job's state copied onto it; the completion time is noted once. */
  function Copied(r: RJob, job: Job, now: Time): RJob {
    var over, ended := job.succeeded <= 0 && OverLimit(job), job.succeeded > 0 || OverLimit(job);
    r.(phase := PhaseBy(job, r),
       retryCount := r.retryCount + if over then 1 else 0,
       completedAt := if ended && r.completedAt.None? then Some(now) else r.completedAt,
       jobRef := if r.jobRef == "" then job.name else r.jobRef)
  }

  lemma SyncCopies(r: RJob, job: Job, now: Time)
    requires r.phase != Failed
    ensures Synced(r, job, now) == Copied(r, job, now)
  {
  }

  /** A reconcile of an rjob with a Job under its name copies that Job's state and changes nothing else. */
  lemma SyncOutcome(cfg: Config, s: Store, name: string, now: Time, view: View)
    requires WellKeyed(s) && ValidView(s, view) && name in s.rjobs
    requires s.rjobs[name].phase == Pending || s.rjobs[name].phase == Dispatched || s.rjobs[name].phase == Running
    requires JobName(s.rjobs[name].fingerprint) in s.jobs
    ensures var r := s.rjobs[name];
            CommitAll(s, Plan(cfg, s, name, now, view)) ==
            s.(rjobs := s.rjobs[name := Copied(r, s.jobs[JobName(r.fingerprint)], now)])
  {
    var job := s.jobs[JobName(s.rjobs[name].fingerprint)];
    assert Plan(cfg, s, name, now, view) == [SyncFrom(name, job, now)] by {
      PlanSyncs(cfg, s, name, now, view);
    }
    CommitOne(s, SyncFrom(name, job, now));
    SyncCopies(s.rjobs[name], job, now);
  }

  // ---- A group led ----

  /** A Job not started yet that carries the rjob's finding and the others, belongs to the rjob and may be
      retried once. */
  predicate NewJobOf(job: Job, r: RJob, others: seq<Finding>, now: Time)
    requires |r.fingerprint| >= 12
  {
    && job.name == "mechanic-agent-" + r.fingerprint[..12] && job.fp12 == r.fingerprint[..12]
    && job.rjobLabel == r.name && job.ownerName == r.name && job.ownerUID == r.uid && job.created == now
    && job.active == job.succeeded == job.failed == 0 && job.backoffLimit == Some(1)
    && job.own == r.finding && job.correlated == others
  }

  /** The group's identifier: what an earlier attempt recorded in the status or else in the label, or a new
      one. */
  function IdentifierOf(r: RJob, next: string): string {
    if r.groupID != "" then r.groupID else if r.groupLabel != "" then r.groupLabel else next
  }

  /** `p` as a member of the group `gid`. */
  function AsMember(p: RJob, gid: string): RJob {
    p.(phase := Suppressed, groupID := gid, groupLabel := gid, role := "correlated")
  }

  /** `t` is `s` after `r` led the group: exactly the Pending rjobs the group correlates are suppressed,
      `r` is marked as the primary and dispatched as one new Job with the group's findings. */
  ghost predicate Led(s: Store, t: Store, r: RJob, g: Group, gid: string, now: Time)
    requires |r.fingerprint| >= 12
  {
    var j := JobName(r.fingerprint);
    && t.rjobs.Keys == s.rjobs.Keys && r.name in t.rjobs && j in t.jobs
    && (forall n :: n in s.rjobs && n != r.name ==>
          t.rjobs[n] == if s.rjobs[n].phase == Pending && s.rjobs[n].uid in g.correlated
                        then AsMember(s.rjobs[n], gid) else s.rjobs[n])
    && t.rjobs[r.name] == r.(phase := Dispatched, groupID := gid, groupLabel := gid, role := "primary",
                             jobRef := j, dispatchedAt := Some(now))
    && t.jobs == s.jobs[j := t.jobs[j]] && NewJobOf(t.jobs[j], r, g.findings, now)
  }

  lemma LeadOutcome(cfg: Config, s: Store, name: string, now: Time, view: View)
    requires WellKeyed(s) && ValidView(s, view) && view.nextGroup != "" && name in s.rjobs && Dispatchable(s, s.rjobs[name])
    requires RouteOf(cfg, s, s.rjobs[name], now, view).Lead? && !Quashed(cfg, view.injected)
    ensures var r := s.rjobs[name];
            Led(s, CommitAll(s, Plan(cfg, s, name, now, view)), r,
                RouteOf(cfg, s, r, now, view).group, IdentifierOf(r, view.nextGroup), now)
  {
    var r := s.rjobs[name];
    var g, gid := RouteOf(cfg, s, r, now, view).group, IdentifierOf(r, view.nextGroup);
    assert Plan(cfg, s, name, now, view) == LeadWrites(cfg, s, r, g, now, view) by {
      OwnedIsJob(s, name, view);
    }
    CommitConcat(s, FormWrites(s, r, g, gid, view), DispatchWrites(cfg, s, r, g.findings, now, view.injected));
    DispatchLeads(cfg, s, r, g, gid, now, view);
  }

  lemma DispatchLeads(cfg: Config, s: Store, r: RJob, g: Group, gid: string, now: Time, view: View)
    requires WellKeyed(s) && ValidView(s, view) && gid != "" && Dispatchable(s, r) && !Quashed(cfg, view.injected)
    ensures Led(s, CommitAll(CommitAll(s, FormWrites(s, r, g, gid, view)), DispatchWrites(cfg, s, r, g.findings, now, view.injected)),
                r, g, gid, now)
  {
    var ms, mid := Members(s, r, g, view), CommitAll(s, FormWrites(s, r, g, gid, view));
    assert FormedStore(s, mid, ms, r, gid) by {
      FormEnabled(cfg, s, now, 0, r, g, gid, view);
    }
    forall n | n in s.rjobs && n != r.name
      ensures Named(ms, n) <==> s.rjobs[n].phase == Pending && s.rjobs[n].uid in g.correlated
    {
      MemberNamed(s, r, g, view, n);
    }
    assert CommitAll(mid, DispatchWrites(cfg, s, r, g.findings, now, view.injected)) == Started(mid, r, g.findings, now) by {
      DispatchEnabled(cfg, s, mid, now, 0, r, g.findings, view.injected);
    }
    FormedLeads(s, mid, ms, r, g, gid, now);
  }

  /** The store once `r`'s Job exists and `r` knows. */
  function Started(s: Store, r: RJob, findings: seq<Finding>, now: Time): Store
    requires |r.fingerprint| >= 12 && r.name in s.rjobs
  {
    var job := BuildJob(r, findings, now);
    Store(s.rjobs[r.name := s.rjobs[r.name].(phase := Dispatched, jobRef := job.name, dispatchedAt := Some(now))],
          s.jobs[job.name := job], s.dispatched + [job])
  }

  lemma FormedLeads(s: Store, mid: Store, ms: seq<RJob>, r: RJob, g: Group, gid: string, now: Time)
    requires FormedStore(s, mid, ms, r, gid) && |r.fingerprint| >= 12
    requires forall n :: n in s.rjobs && n != r.name ==>
               (Named(ms, n) <==> s.rjobs[n].phase == Pending && s.rjobs[n].uid in g.correlated)
    ensures Led(s, Started(mid, r, g.findings, now), r, g, gid, now)
  {
  }

  lemma MemberNamed(s: Store, r: RJob, g: Group, view: View, n: string)
    requires WellKeyed(s) && ValidView(s, view) && r.name in s.rjobs && s.rjobs[r.name] == r && n in s.rjobs && n != r.name
    ensures Named(Members(s, r, g, view), n) <==> s.rjobs[n].phase == Pending && s.rjobs[n].uid in g.correlated
  {
    MembersSuppressible(s, r, g, view);
    assert s.rjobs[n].uid != r.uid;
  }

  /** `t` is `s` with `r`, now as `r'`, dispatched as one new Job that carries the others' findings too. */
  predicate SentOff(s: Store, t: Store, r: RJob, r': RJob, others: seq<Finding>, now: Time)
    requires |r.fingerprint| >= 12
  {
    var j := JobName(r.fingerprint);
    && t.rjobs == s.rjobs[r.name := r'.(phase := Dispatched, jobRef := j, dispatchedAt := Some(now))]
    && j in t.jobs && t.jobs == s.jobs[j := t.jobs[j]] && NewJobOf(t.jobs[j], r, others, now)
  }

  lemma DispatchOutcome(cfg: Config, s0: Store, s: Store, r: RJob, others: seq<Finding>, now: Time, injected: bool)
    requires Dispatchable(s0, r) && s.jobs == s0.jobs && !Quashed(cfg, injected)
    requires r.name in s.rjobs && s.rjobs[r.name].(groupID := r.groupID, groupLabel := r.groupLabel, role := r.role) == r
    ensures SentOff(s, CommitAll(s, DispatchWrites(cfg, s0, r, others, now, injected)), r, s.rjobs[r.name], others, now)
  {
    DispatchEnabled(cfg, s0, s, now, 0, r, others, injected);
  }

  lemma SoloPlan(cfg: Config, s: Store, name: string, now: Time, view: View)
    requires WellKeyed(s) && ValidView(s, view) && name in s.rjobs && Dispatchable(s, s.rjobs[name])
    requires RouteOf(cfg, s, s.rjobs[name], now, view).Solo? && !Limited(cfg, s, now, view)
    ensures Plan(cfg, s, name, now, view) == DispatchWrites(cfg, s, s.rjobs[name], [], now, view.injected)
  {
    OwnedIsJob(s, name, view);
  }

  /** An uncorrelated rjob is dispatched with its own finding alone when the gate is open. */
  lemma SoloOutcome(cfg: Config, s: Store, name: string, now: Time, view: View)
    requires WellKeyed(s) && ValidView(s, view) && name in s.rjobs && Dispatchable(s, s.rjobs[name])
    requires RouteOf(cfg, s, s.rjobs[name], now, view).Solo? && !Limited(cfg, s, now, view) && !Quashed(cfg, view.injected)
    ensures SentOff(s, CommitAll(s, Plan(cfg, s, name, now, view)), s.rjobs[name], s.rjobs[name], [], now)
  {
    SoloPlan(cfg, s, name, now, view);
    DispatchOutcome(cfg, s, s, s.rjobs[name], [], now, view.injected);
  }

  /** The rjob labelled as its group's primary, if it carries no label yet. */
  function Labelled(r: RJob): RJob {
    if r.groupLabel == "" then r.(groupLabel := r.groupID, role := "primary") else r
  }

  /** An rjob that resumes an interrupted group is labelled as its primary; past the gate it is dispatched
      with the findings of everyone suppressed under the group. */
  lemma RecoverOutcome(cfg: Config, s: Store, name: string, now: Time, view: View)
    requires WellKeyed(s) && ValidView(s, view) && name in s.rjobs && Dispatchable(s, s.rjobs[name])
    requires RouteOf(cfg, s, s.rjobs[name], now, view).Recover? && !Quashed(cfg, view.injected)
    ensures var r, t := s.rjobs[name], CommitAll(s, Plan(cfg, s, name, now, view));
            if Limited(cfg, s, now, view) then t == s.(rjobs := s.rjobs[name := Labelled(r)])
            else SentOff(s, t, r, Labelled(r), Recovered(s, r, view), now)
  {
    assert Plan(cfg, s, name, now, view) == RecoverWrites(cfg, s, s.rjobs[name], now, view) by {
      OwnedIsJob(s, name, view);
    }
    ResumeOutcome(cfg, s, s.rjobs[name], now, view);
  }

  lemma ResumeOutcome(cfg: Config, s: Store, r: RJob, now: Time, view: View)
    requires Dispatchable(s, r) && !Quashed(cfg, view.injected)
    ensures var t := CommitAll(s, RecoverWrites(cfg, s, r, now, view));
            if Limited(cfg, s, now, view) then t == s.(rjobs := s.rjobs[r.name := Labelled(r)])
            else SentOff(s, t, r, Labelled(r), Recovered(s, r, view), now)
  {
    var mark := if r.groupLabel == "" then [LabelPrimary(r.name, r.groupID)] else [];
    LabelOutcome(s, r);
    var mid := CommitAll(s, mark);
    if Limited(cfg, s, now, view) {
      assert mark + [] == mark;
    } else {
      var go := DispatchWrites(cfg, s, r, Recovered(s, r, view), now, view.injected);
      assert CommitAll(s, mark + go) == CommitAll(mid, go) by {
        CommitConcat(s, mark, go);
      }
      assert SentOff(mid, CommitAll(mid, go), r, Labelled(r), Recovered(s, r, view), now) by {
        DispatchOutcome(cfg, s, mid, r, Recovered(s, r, view), now, view.injected);
      }
      SentOffFrom(s, mid, CommitAll(mid, go), r, Labelled(r), Recovered(s, r, view), now);
    }
  }

  lemma SentOffFrom(s: Store, mid: Store, t: Store, r: RJob, r': RJob, others: seq<Finding>, now: Time)
    requires |r.fingerprint| >= 12 && mid == s.(rjobs := s.rjobs[r.name := r']) && SentOff(mid, t, r, r', others, now)
    ensures SentOff(s, t, r, r', others, now)
  {
  }

  lemma LabelOutcome(s: Store, r: RJob)
    requires r.name in s.rjobs && s.rjobs[r.name] == r
    ensures CommitAll(s, if r.groupLabel == "" then [LabelPrimary(r.name, r.groupID)] else []) ==
            s.(rjobs := s.rjobs[r.name := Labelled(r)])
  {
    CommitOne(s, LabelPrimary(r.name, r.groupID));
    assert CommitAll(s, []) == s && s.rjobs[r.name := r] == s.rjobs;
  }

  /** Suppressed as an injection, an uncorrelated rjob fails for good and no Job is made. */
  lemma QuashOutcome(cfg: Config, s: Store, name: string, now: Time, view: View)
    requires WellKeyed(s) && ValidView(s, view) && name in s.rjobs && Dispatchable(s, s.rjobs[name])
    requires RouteOf(cfg, s, s.rjobs[name], now, view).Solo? && !Limited(cfg, s, now, view)
    requires view.injected && cfg.suppressInjection
    ensures CommitAll(s, Plan(cfg, s, name, now, view)) == s.(rjobs := s.rjobs[name := s.rjobs[name].(phase := PermanentlyFailed)])
  {
    SoloPlan(cfg, s, name, now, view);
    QuashFails(cfg, s, s.rjobs[name], now, view.injected);
  }

  lemma QuashFails(cfg: Config, s: Store, r: RJob, now: Time, injected: bool)
    requires r.name in s.rjobs && s.rjobs[r.name] == r && Quashed(cfg, injected)
    ensures CommitAll(s, DispatchWrites(cfg, s, r, [], now, injected)) == s.(rjobs := s.rjobs[r.name := r.(phase := PermanentlyFailed)])
  {
    CommitOne(s, FailPermanently(r.name));
  }

  /** Reconciling an rjob that has failed, was cancelled or suppressed, or lost its Job after dispatch does
      nothing; an untouched one becomes Pending. */
  lemma RestOutcome(cfg: Config, s: Store, name: string, now: Time, view: View)
    requires WellKeyed(s) && ValidView(s, view) && name in s.rjobs
    requires s.rjobs[name].phase != Pending && s.rjobs[name].phase != Succeeded
    requires s.rjobs[name].phase == Dispatched || s.rjobs[name].phase == Running ==> JobName(s.rjobs[name].fingerprint) !in s.jobs
    ensures var r, t := s.rjobs[name], CommitAll(s, Plan(cfg, s, name, now, view));
            t == if r.phase == Blank then s.(rjobs := s.rjobs[name := r.(phase := Pending)]) else s
  {
    OwnedIsJob(s, name, view);
    CommitOne(s, InitPhase(name));
  }

  // ---- A pod that cannot be read ----

  /** Another Pending rjob of the namespace. */
  predicate Beside(s: Store, name: string, n: string)
    requires name in s.rjobs
  {
    n in s.rjobs && n != name && s.rjobs[n].phase == Pending && s.rjobs[n].finding.namespace == s.rjobs[name].finding.namespace
  }

  /** The correlator needs a pod it cannot read: the rjob's own while a claim waits beside it, or one beside
      it when the rjob is a claim. */
  ghost predicate NeededReadFails(s: Store, name: string, pods: Pods)
    requires name in s.rjobs
  {
    var f := s.rjobs[name].finding;
    || (PodFails(pods, f) && exists n :: Beside(s, name, n) && s.rjobs[n].finding.kind == "PersistentVolumeClaim")
    || (f.kind == "PersistentVolumeClaim" && exists n :: Beside(s, name, n) && PodFails(pods, s.rjobs[n].finding))
  }

  lemma PeerListed(s: Store, name: string, n: string, view: View)
    requires WellKeyed(s) && ValidView(s, view) && name in s.rjobs && Beside(s, name, n)
    ensures s.rjobs[n] in Peers(s, s.rjobs[name], view)
  {
    FilteredListing(PeerOf(s.rjobs[name]), view.order, s);
    assert s.rjobs[n].uid != s.rjobs[name].uid;
  }

  lemma ReadErrs(s: Store, name: string, view: View)
    requires WellKeyed(s) && ValidView(s, view) && name in s.rjobs && NeededReadFails(s, name, view.pods)
    ensures PVCPod(s.rjobs[name], Peers(s, s.rjobs[name], view), view.pods).RuleError?
  {
    var c, peers := s.rjobs[name], Peers(s, s.rjobs[name], view);
    if c.finding.kind == "PersistentVolumeClaim" {
      var n :| Beside(s, name, n) && PodFails(view.pods, s.rjobs[n].finding);
      PeerListed(s, name, n, view);
      ClaimRuleMatches(c, peers, view.pods);
    } else {
      var n :| Beside(s, name, n) && s.rjobs[n].finding.kind == "PersistentVolumeClaim";
      PeerListed(s, name, n, view);
      PodRuleMatches(c, peers, view.pods);
    }
  }

  /** A reconcile whose pod read fails writes nothing, so the rjob is held. */
  lemma ReadErrorHolds(cfg: Config, s: Store, name: string, now: Time, view: View)
    requires WellKeyed(s) && ValidView(s, view) && name in s.rjobs && Dispatchable(s, s.rjobs[name])
    requires cfg.correlation.Some? && NeededReadFails(s, name, view.pods)
    ensures Plan(cfg, s, name, now, view) == []
  {
    OwnedIsJob(s, name, view);
    ReadErrs(s, name, view);
    EvaluateDecides(cfg.correlation.value, s.rjobs[name], Peers(s, s.rjobs[name], view), view.pods, view.nextGroup);
  }
}
