/** How one incarnation of an rjob may change over time, and what every enabled write keeps. */
module Evolution {
  import opened Types
  import opened Stores
  import opened Provider
  import opened Lifecycle

  // ---- One incarnation over time ----

  /** Phases reachable from `a` by zero or more steps. */
  predicate Flows(a: Phase, b: Phase) {
    a == b ||
    match a
    case Blank => true
    case Pending => b != Blank
    case Dispatched => b == Running || b == Succeeded || b == Failed || b == PermanentlyFailed || b == Cancelled
    case Running => b == Dispatched || b == Succeeded || b == Failed || b == PermanentlyFailed || b == Cancelled
    case Suppressed => b == Cancelled
    case _ => false
  }

  predicate SameIdentity(a: RJob, b: RJob) {
    && a.name == b.name && a.uid == b.uid && a.created == b.created && a.source == b.source
    && a.fingerprint == b.fingerprint && a.finding == b.finding && a.node == b.node && a.maxRetries == b.maxRetries
  }

  /** The retry count moves at most once, exactly when a live rjob fails with its Job. */
  predicate RetriesMove(a: RJob, b: RJob) {
    && (b.retryCount == a.retryCount ||
        (b.retryCount == a.retryCount + 1 && Live(a.phase) && (b.phase == Failed || b.phase == PermanentlyFailed)))
    && (Live(a.phase) && b.phase == Failed ==> b.retryCount == a.retryCount + 1)
  }

  /** `b` is what `a`, seen at time `since`, may have become. */
  predicate Evolves(since: Time, a: RJob, b: RJob) {
    && SameIdentity(a, b)
    && Flows(a.phase, b.phase)
    && RetriesMove(a, b)
    && (a.completedAt.Some? ==> b.completedAt == a.completedAt)
    && (a.prMerged ==> b.prMerged && b.prMergedAt == a.prMergedAt)
    && (!a.prMerged && b.prMerged ==> b.phase == Succeeded && b.prMergedAt.Some? && b.prMergedAt.value >= since)
    && (a.phase == Suppressed || a.phase == Cancelled ==> b.groupID == a.groupID)
  }

  lemma EvolvesThen(t: Time, u: Time, a: RJob, b: RJob, c: RJob)
    requires t <= u && Evolves(t, a, b) && Evolves(u, b, c)
    ensures Evolves(t, a, c)
  {
  }

  lemma EvolvesSelf(t: Time, r: RJob)
    ensures Evolves(t, r, r)
  {
  }

  lemma SyncEvolves(now: Time, r: RJob, job: Job)
    requires Live(r.phase) && r.phase != Blank
    ensures Evolves(now, r, Synced(r, job, now))
  {
  }

  /** An enabled patch evolves the rjob it is for. */
  lemma PatchEvolves(cfg: Config, s: Store, now: Time, uid: UID, w: Write)
    requires Enabled(cfg, s, now, uid, w) && IsPatch(w)
    ensures w.name in s.rjobs && Evolves(now, s.rjobs[w.name], Patch(s.rjobs[w.name], w))
  {
    if w.SyncFrom? {
      SyncEvolves(now, s.rjobs[w.name], w.job);
    }
  }

  /** After an enabled write an rjob has evolved, unless the write removed it. */
  lemma WriteEvolves(cfg: Config, s: Store, now: Time, uid: UID, w: Write, n: string)
    requires Enabled(cfg, s, now, uid, w) && n in s.rjobs
    ensures w != Remove(n) ==> n in Commit(s, w).rjobs && Evolves(now, s.rjobs[n], Commit(s, w).rjobs[n])
    ensures w == Remove(n) ==> n !in Commit(s, w).rjobs && Removable(cfg, s.rjobs[n], now)
  {
    EvolvesSelf(now, s.rjobs[n]);
    if IsPatch(w) {
      PatchEvolves(cfg, s, now, uid, w);
    }
  }

  /** An enabled write adds no rjob but the one it creates. */
  lemma WriteAdds(cfg: Config, s: Store, now: Time, uid: UID, w: Write, n: string)
    requires Enabled(cfg, s, now, uid, w) && n in Commit(s, w).rjobs && n !in s.rjobs
    ensures w.CreateRJob? && n == w.rjob.name && Commit(s, w).rjobs[n] == w.rjob
  {
  }

  // ---- Keys ----

  /** Each rjob after an enabled write is an old one evolved or the newly created one. */
  lemma RJobsAfter(cfg: Config, s: Store, now: Time, uid: UID, w: Write, n: string)
    requires Enabled(cfg, s, now, uid, w) && n in Commit(s, w).rjobs
    ensures if n in s.rjobs then Evolves(now, s.rjobs[n], Commit(s, w).rjobs[n])
            else w.CreateRJob? && n == w.rjob.name && Commit(s, w).rjobs[n] == w.rjob && w.rjob.uid == uid
  {
    if n in s.rjobs {
      WriteEvolves(cfg, s, now, uid, w, n);
    } else {
      WriteAdds(cfg, s, now, uid, w, n);
    }
  }

  lemma JobsAfter(cfg: Config, s: Store, now: Time, uid: UID, w: Write)
    requires Enabled(cfg, s, now, uid, w)
    ensures if w.CreateJob? then
              && w.job.name !in s.jobs && Commit(s, w).rjobs == s.rjobs
              && Commit(s, w).jobs == s.jobs[w.job.name := w.job] && Commit(s, w).dispatched == s.dispatched + [w.job]
            else Commit(s, w).jobs == s.jobs && Commit(s, w).dispatched == s.dispatched
  {
  }

  lemma WriteKeepsKeys(cfg: Config, s: Store, now: Time, uid: UID, w: Write)
    requires WellKeyed(s) && Enabled(cfg, s, now, uid, w)
    ensures WellKeyed(Commit(s, w))
  {
    var s' := Commit(s, w);
    forall n | n in s'.rjobs
      ensures s'.rjobs[n].name == n && |s'.rjobs[n].fingerprint| >= 12 && n == RJobName(s'.rjobs[n].fingerprint)
    {
      RJobsAfter(cfg, s, now, uid, w, n);
    }
    forall n, m | n in s'.rjobs && m in s'.rjobs && s'.rjobs[n].uid == s'.rjobs[m].uid ensures n == m {
      RJobsAfter(cfg, s, now, uid, w, n);
      RJobsAfter(cfg, s, now, uid, w, m);
    }
    JobsAfter(cfg, s, now, uid, w);
    if w.CreateJob? {
      assert JobKeyed(w.job, w.job.name);
    }
  }

  // ---- What holds of each rjob ----

  /** Facts about a single rjob that every run keeps: times lie in the past, a Succeeded rjob has a
      completion time, the retry count is at most one and reaching the cap means permanent failure,
      and self-remediation is no deeper than allowed. */
  ghost predicate Sound(cfg: Config, r: RJob, now: Time) {
    && r.created <= now
    && (r.completedAt.Some? ==> r.completedAt.value <= now)
    && (r.phase == Succeeded ==> r.completedAt.Some?)
    && (r.retryCount == 0 || (r.retryCount == 1 && (r.phase == Failed || r.phase == PermanentlyFailed)))
    && CapRespected(r)
    && (r.phase == PermanentlyFailed ==> cfg.suppressInjection || EffectiveMaxRetries(r) == 1)
    && r.maxRetries == cfg.maxRetries
    && !TooDeep(cfg, r.finding)
  }

  /** Reaching the retry cap means being permanently failed. */
  predicate CapRespected(r: RJob) {
    r.retryCount >= EffectiveMaxRetries(r) ==> r.phase == PermanentlyFailed
  }

  /** From any retry count below the cap, every enabled write respects the cap. */
  lemma WriteRespectsCap(cfg: Config, s: Store, now: Time, uid: UID, w: Write, n: string)
    requires Enabled(cfg, s, now, uid, w) && n in s.rjobs && n in Commit(s, w).rjobs && CapRespected(s.rjobs[n])
    ensures CapRespected(Commit(s, w).rjobs[n])
  {
  }

  lemma WriteKeepsSound(cfg: Config, s: Store, now: Time, uid: UID, w: Write)
    requires Enabled(cfg, s, now, uid, w)
    requires forall n :: n in s.rjobs ==> Sound(cfg, s.rjobs[n], now)
    ensures forall n :: n in Commit(s, w).rjobs ==> Sound(cfg, Commit(s, w).rjobs[n], now)
  {
    var s' := Commit(s, w);
    forall n | n in s'.rjobs ensures Sound(cfg, s'.rjobs[n], now) {
      if n in s.rjobs && s'.rjobs[n] != s.rjobs[n] {
        assert IsPatch(w) && w.name == n;
        PatchKeepsSound(cfg, s, now, uid, w);
      }
    }
  }

  lemma PatchKeepsSound(cfg: Config, s: Store, now: Time, uid: UID, w: Write)
    requires Enabled(cfg, s, now, uid, w) && IsPatch(w) && w.name in s.rjobs && Sound(cfg, s.rjobs[w.name], now)
    ensures Sound(cfg, Patch(s.rjobs[w.name], w), now)
  {
  }

  /** Below the next bound, all UIDs stay below it. */
  lemma WriteKeepsBound(cfg: Config, s: Store, now: Time, uid: UID, w: Write)
    requires Enabled(cfg, s, now, uid, w) && Unused(s, uid + 1)
    ensures Unused(Commit(s, w), uid + 1)
  {
    var s' := Commit(s, w);
    JobsAfter(cfg, s, now, uid, w);
    forall n | n in s'.rjobs ensures s'.rjobs[n].uid < uid + 1 {
      RJobsAfter(cfg, s, now, uid, w, n);
    }
  }

  // ---- Hierarchy ----

  /** Of two rjobs for one parent, the one of lower rank was created first. */
  ghost predicate RankOrdered(s: Store) {
    forall n, m :: n in s.rjobs && m in s.rjobs && Covers(s.rjobs[n].finding)(s.rjobs[m]) && s.rjobs[n].finding.parent != ""
      ==> s.rjobs[n].uid < s.rjobs[m].uid && s.rjobs[n].created <= s.rjobs[m].created
  }

  lemma WriteKeepsRanks(cfg: Config, s: Store, now: Time, uid: UID, w: Write)
    requires Enabled(cfg, s, now, uid, w) && RankOrdered(s)
    requires forall n :: n in s.rjobs ==> s.rjobs[n].created <= now
    ensures RankOrdered(Commit(s, w))
  {
    var s' := Commit(s, w);
    forall n, m | n in s'.rjobs && m in s'.rjobs && Covers(s'.rjobs[n].finding)(s'.rjobs[m]) && s'.rjobs[n].finding.parent != ""
      ensures s'.rjobs[n].uid < s'.rjobs[m].uid && s'.rjobs[n].created <= s'.rjobs[m].created
    {
      RJobsAfter(cfg, s, now, uid, w, n);
      RJobsAfter(cfg, s, now, uid, w, m);
    }
  }

  // ---- At most one Job per incarnation ----

  /** No incarnation has two Jobs in the history, and one that could still dispatch either has none
      or still has its Job to be synced from. */
  ghost predicate DispatchedOnce(s: Store) {
    && (forall i, j :: 0 <= i < j < |s.dispatched| ==> s.dispatched[i].ownerUID != s.dispatched[j].ownerUID)
    && (forall i, n :: 0 <= i < |s.dispatched| && n in s.rjobs && Waiting(s.rjobs[n].phase)
                       && s.rjobs[n].uid == s.dispatched[i].ownerUID
          ==> HasItsJob(s, s.rjobs[n]))
  }

  ghost predicate HasItsJob(s: Store, r: RJob) {
    && |r.fingerprint| >= 12 && JobName(r.fingerprint) in s.jobs
    && s.jobs[JobName(r.fingerprint)].ownerUID == r.uid
  }

  lemma WriteDispatchesOnce(cfg: Config, s: Store, now: Time, uid: UID, w: Write)
    requires WellKeyed(s) && Enabled(cfg, s, now, uid, w) && DispatchedOnce(s)
    ensures DispatchedOnce(Commit(s, w))
  {
    var s' := Commit(s, w);
    JobsAfter(cfg, s, now, uid, w);
    forall i, n | 0 <= i < |s'.dispatched| && n in s'.rjobs && Waiting(s'.rjobs[n].phase)
                  && s'.rjobs[n].uid == s'.dispatched[i].ownerUID
      ensures HasItsJob(s', s'.rjobs[n])
    {
      KeepsItsJob(cfg, s, now, uid, w, i, n);
    }
  }

  lemma KeepsItsJob(cfg: Config, s: Store, now: Time, uid: UID, w: Write, i: nat, n: string)
    requires WellKeyed(s) && Enabled(cfg, s, now, uid, w) && DispatchedOnce(s)
    requires var s' := Commit(s, w); i < |s'.dispatched| && n in s'.rjobs && Waiting(s'.rjobs[n].phase) && s'.rjobs[n].uid == s'.dispatched[i].ownerUID
    ensures HasItsJob(Commit(s, w), Commit(s, w).rjobs[n])
  {
    JobsAfter(cfg, s, now, uid, w);
    RJobsAfter(cfg, s, now, uid, w, n);
  }
}
