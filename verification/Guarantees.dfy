/** What every run promises about each incarnation of an rjob. */
module Guarantees {
  import opened Types
  import opened Stores
  import opened Controller
  import opened Provider
  import opened Lifecycle
  import opened Evolution
  import opened Runs

  // ---- The fate of one incarnation ----

  predicate Present(s: Store, r: RJob) {
    r.name in s.rjobs && s.rjobs[r.name].uid == r.uid
  }

  /** `r` was removed at some point up to `now`, in a form that allowed it. */
  ghost predicate Gone(cfg: Config, since: Time, r: RJob, now: Time) {
    exists last, t :: t <= now && Evolves(since, r, last) && Removable(cfg, last, t)
  }

  /** `r`, seen at `since`, has either evolved or been removed. */
  ghost predicate Fate(cfg: Config, since: Time, r: RJob, s: Store, now: Time) {
    if Present(s, r) then Evolves(since, r, s.rjobs[r.name]) else Gone(cfg, since, r, now)
  }

  lemma WriteFate(cfg: Config, s: Store, now: Time, uid: UID, w: Write, since: Time, r: RJob)
    requires Enabled(cfg, s, now, uid, w) && since <= now && r.uid < uid && Fate(cfg, since, r, s, now)
    ensures Fate(cfg, since, r, Commit(s, w), now)
  {
    var t := Commit(s, w);
    if Present(s, r) {
      WriteEvolves(cfg, s, now, uid, w, r.name);
      if w != Remove(r.name) {
        EvolvesThen(since, now, r, s.rjobs[r.name], t.rjobs[r.name]);
      }
    } else if r.name in t.rjobs {
      RJobsAfter(cfg, s, now, uid, w, r.name);
    }
  }

  lemma {:induction false} WritesFate(cfg: Config, s: Store, now: Time, uid: UID, ws: seq<Write>, k: nat, since: Time, r: RJob)
    requires AllEnabled(cfg, s, now, uid, ws) && k <= |ws| && since <= now && r.uid < uid && Fate(cfg, since, r, s, now)
    ensures Fate(cfg, since, r, CommitAll(s, ws[..k]), now)
  {
    if k > 0 {
      WritesFate(cfg, s, now, uid, ws, k - 1, since, r);
      CommitStep(s, ws, k - 1);
      EnabledAt(cfg, s, now, uid, ws, k - 1);
      WriteFate(cfg, CommitAll(s, ws[..k - 1]), now, uid, ws[k - 1], since, r);
    } else {
      assert ws[..0] == [];
    }
  }

  /** Which store a step leaves, in terms of its writes. */
  lemma StepStore(cfg: Config, s: State, step: Step)
    ensures step.Control? || step.Provide? ==>
              exists k :: 0 <= k <= |WritesOf(cfg, s, step)|
                          && Next(cfg, s, step).store == CommitAll(s.store, WritesOf(cfg, s, step)[..k])
                          && Next(cfg, s, step).now == s.now
  {
    if step.Control? || step.Provide? {
      var ws := WritesOf(cfg, s, step);
      var k := |Prefix(ws, step.stop)|;
      assert Prefix(ws, step.stop) == ws[..k];
    }
  }

  lemma StepFate(cfg: Config, env: Env, s: State, step: Step, since: Time, r: RJob)
    requires Inv(cfg, env, s) && Legal(cfg, env, s, step)
    requires since <= s.now && r.uid < s.nextUID && Fate(cfg, since, r, s.store, s.now)
    ensures Fate(cfg, since, r, Next(cfg, s, step).store, Next(cfg, s, step).now)
  {
    if step.Control? || step.Provide? {
      ReconcileFate(cfg, env, s, step, since, r);
    } else {
      ElsewiseFate(cfg, s, step, since, r);
    }
  }

  lemma ReconcileFate(cfg: Config, env: Env, s: State, step: Step, since: Time, r: RJob)
    requires Inv(cfg, env, s) && Legal(cfg, env, s, step) && (step.Control? || step.Provide?)
    requires since <= s.now && r.uid < s.nextUID && Fate(cfg, since, r, s.store, s.now)
    ensures Fate(cfg, since, r, Next(cfg, s, step).store, Next(cfg, s, step).now)
  {
    var ws := WritesOf(cfg, s, step);
    StepEnabled(cfg, env, s, step);
    StepStore(cfg, s, step);
    var k :| 0 <= k <= |ws| && Next(cfg, s, step).store == CommitAll(s.store, ws[..k]) && Next(cfg, s, step).now == s.now;
    WritesFate(cfg, s.store, s.now, s.nextUID, ws, k, since, r);
  }

  lemma ElsewiseFate(cfg: Config, s: State, step: Step, since: Time, r: RJob)
    requires !step.Control? && !step.Provide? && Fate(cfg, since, r, s.store, s.now)
    ensures Fate(cfg, since, r, Next(cfg, s, step).store, Next(cfg, s, step).now)
  {
  }

  lemma StepAdvances(cfg: Config, s: State, step: Step)
    ensures Next(cfg, s, step).now >= s.now && Next(cfg, s, step).nextUID >= s.nextUID
  {
  }

  /** Over every run, every incarnation evolves or is removed when it may be. */
  lemma {:induction false} RunFate(cfg: Config, env: Env, s: State, steps: seq<Step>, since: Time, r: RJob)
    requires Inv(cfg, env, s) && LegalRun(cfg, env, s, steps)
    requires since <= s.now && r.uid < s.nextUID && Fate(cfg, since, r, s.store, s.now)
    ensures var t := Run(cfg, s, steps);
            && Fate(cfg, since, r, t.store, t.now) && t.now >= s.now && t.nextUID >= s.nextUID
    decreases |steps|
  {
    if steps != [] {
      StepFate(cfg, env, s, steps[0], since, r);
      StepKeepsInv(cfg, env, s, steps[0]);
      StepAdvances(cfg, s, steps[0]);
      RunFate(cfg, env, Next(cfg, s, steps[0]), steps[1..], since, r);
    }
  }

  lemma StoredFate(cfg: Config, env: Env, s: State, n: string)
    requires Inv(cfg, env, s) && n in s.store.rjobs
    ensures Fate(cfg, s.now, s.store.rjobs[n], s.store, s.now) && s.store.rjobs[n].uid < s.nextUID
  {
  }

  // ---- Dispatch happens at most once ----

  /** The phase never comes back: what has left Pending does not return to it, and what has left the
      blank phase does not return to that. */
  lemma PhaseNeverReturns(cfg: Config, env: Env, s: State, steps: seq<Step>, n: string)
    requires Inv(cfg, env, s) && LegalRun(cfg, env, s, steps) && n in s.store.rjobs
    ensures var r, t := s.store.rjobs[n], Run(cfg, s, steps).store;
            Present(t, r) ==>
              && (!Waiting(r.phase) ==> !Waiting(t.rjobs[n].phase))
              && (r.phase == Pending ==> t.rjobs[n].phase != Blank)
              && t.rjobs[n].finding == r.finding
  {
    StoredFate(cfg, env, s, n);
    RunFate(cfg, env, s, steps, s.now, s.store.rjobs[n]);
  }

  /** No entry of the history after the first `from` belongs to `uid`. */
  ghost predicate NoJobSince(s: Store, from: nat, uid: UID) {
    from <= |s.dispatched| && forall i :: from <= i < |s.dispatched| ==> s.dispatched[i].ownerUID != uid
  }

  /** UIDs determine names throughout. */
  ghost predicate NameFixed(s: Store, r: RJob) {
    forall n :: n in s.rjobs && s.rjobs[n].uid == r.uid ==> n == r.name
  }

  lemma WriteNoJob(cfg: Config, s: Store, now: Time, uid: UID, w: Write, since: Time, r: RJob, from: nat)
    requires Enabled(cfg, s, now, uid, w) && Fate(cfg, since, r, s, now) && !Waiting(r.phase) && r.uid < uid
    requires NoJobSince(s, from, r.uid) && NameFixed(s, r)
    ensures NoJobSince(Commit(s, w), from, r.uid) && NameFixed(Commit(s, w), r)
  {
    JobsAfter(cfg, s, now, uid, w);
    forall n | n in Commit(s, w).rjobs && Commit(s, w).rjobs[n].uid == r.uid ensures n == r.name {
      RJobsAfter(cfg, s, now, uid, w, n);
    }
  }

  lemma {:induction false} WritesNoJob(cfg: Config, s: Store, now: Time, uid: UID, ws: seq<Write>, k: nat, since: Time, r: RJob, from: nat)
    requires AllEnabled(cfg, s, now, uid, ws) && k <= |ws|
    requires since <= now && r.uid < uid && Fate(cfg, since, r, s, now) && !Waiting(r.phase)
    requires NoJobSince(s, from, r.uid) && NameFixed(s, r)
    ensures NoJobSince(CommitAll(s, ws[..k]), from, r.uid) && NameFixed(CommitAll(s, ws[..k]), r)
  {
    if k > 0 {
      WritesNoJob(cfg, s, now, uid, ws, k - 1, since, r, from);
      WritesFate(cfg, s, now, uid, ws, k - 1, since, r);
      CommitStep(s, ws, k - 1);
      EnabledAt(cfg, s, now, uid, ws, k - 1);
      WriteNoJob(cfg, CommitAll(s, ws[..k - 1]), now, uid, ws[k - 1], since, r, from);
    } else {
      assert ws[..0] == [];
    }
  }

  lemma StepNoJob(cfg: Config, env: Env, s: State, step: Step, since: Time, r: RJob, from: nat)
    requires Inv(cfg, env, s) && Legal(cfg, env, s, step)
    requires since <= s.now && r.uid < s.nextUID && Fate(cfg, since, r, s.store, s.now) && !Waiting(r.phase)
    requires NoJobSince(s.store, from, r.uid) && NameFixed(s.store, r)
    ensures NoJobSince(Next(cfg, s, step).store, from, r.uid) && NameFixed(Next(cfg, s, step).store, r)
  {
    if step.Control? || step.Provide? {
      StepEnabled(cfg, env, s, step);
      StepStore(cfg, s, step);
      var ws := WritesOf(cfg, s, step);
      var k :| 0 <= k <= |ws| && Next(cfg, s, step).store == CommitAll(s.store, ws[..k]);
      WritesNoJob(cfg, s.store, s.now, s.nextUID, ws, k, since, r, from);
    }
  }

  /** Once an incarnation has left Pending, no run creates another Job for it, whatever is collected
      meanwhile. */
  lemma {:induction false} NoJobAfterPending(cfg: Config, env: Env, s: State, steps: seq<Step>, since: Time, r: RJob, from: nat)
    requires Inv(cfg, env, s) && LegalRun(cfg, env, s, steps)
    requires since <= s.now && r.uid < s.nextUID && Fate(cfg, since, r, s.store, s.now) && !Waiting(r.phase)
    requires NoJobSince(s.store, from, r.uid) && NameFixed(s.store, r)
    ensures NoJobSince(Run(cfg, s, steps).store, from, r.uid)
    decreases |steps|
  {
    if steps != [] {
      StepNoJob(cfg, env, s, steps[0], since, r, from);
      StepFate(cfg, env, s, steps[0], since, r);
      StepKeepsInv(cfg, env, s, steps[0]);
      StepAdvances(cfg, s, steps[0]);
      NoJobAfterPending(cfg, env, Next(cfg, s, steps[0]), steps[1..], since, r, from);
    }
  }

  lemma InitialInv(cfg: Config, env: Env, s: State)
    requires Initial(s)
    ensures Inv(cfg, env, s)
  {
  }

  /** No double dispatch: in every run from the start, stops included, no incarnation has two Jobs,
      provided a Job made just before a stop survives to the next reconcile. */
  lemma NoDoubleDispatch(cfg: Config, env: Env, s: State, steps: seq<Step>, i: nat, j: nat)
    requires Initial(s) && env.jobsSurvive && LegalRun(cfg, env, s, steps)
    requires i < j < |Run(cfg, s, steps).store.dispatched|
    ensures Run(cfg, s, steps).store.dispatched[i].ownerUID != Run(cfg, s, steps).store.dispatched[j].ownerUID
  {
    InitialInv(cfg, env, s);
    RunKeepsInv(cfg, env, s, steps);
  }

  // ---- Tombstones ----

  /** At most one rjob per fingerprint, in every reachable state. */
  lemma OnePerFingerprint(cfg: Config, env: Env, s: State, steps: seq<Step>, n: string, m: string)
    requires Initial(s) && LegalRun(cfg, env, s, steps)
    requires n in Run(cfg, s, steps).store.rjobs && m in Run(cfg, s, steps).store.rjobs
    requires Run(cfg, s, steps).store.rjobs[n].fingerprint == Run(cfg, s, steps).store.rjobs[m].fingerprint
    ensures n == m
  {
    InitialInv(cfg, env, s);
    RunKeepsInv(cfg, env, s, steps);
  }

  /** A permanently failed rjob is there for ever: still permanently failed, the only rjob of its
      fingerprint, and with no further Job. */
  lemma PermanentTombstone(cfg: Config, env: Env, s: State, steps: seq<Step>, n: string)
    requires Inv(cfg, env, s) && LegalRun(cfg, env, s, steps)
    requires n in s.store.rjobs && s.store.rjobs[n].phase == PermanentlyFailed
    ensures var r, t := s.store.rjobs[n], Run(cfg, s, steps).store;
            && Present(t, r) && t.rjobs[n].phase == PermanentlyFailed
            && NoJobSince(t, |s.store.dispatched|, r.uid)
            && forall m :: m in t.rjobs && t.rjobs[m].fingerprint == r.fingerprint ==> m == n
  {
    var r, t := s.store.rjobs[n], Run(cfg, s, steps).store;
    StoredFate(cfg, env, s, n);
    assert Present(t, r) && t.rjobs[n].phase == PermanentlyFailed by {
      RunFate(cfg, env, s, steps, s.now, r);
    }
    assert NoJobSince(t, |s.store.dispatched|, r.uid) by {
      NoJobAfterPending(cfg, env, s, steps, s.now, r, |s.store.dispatched|);
    }
    RunKeepsInv(cfg, env, s, steps);
  }

  /** A day, unless configured otherwise. */
  function UnmergedTTL(cfg: Config): int {
    if cfg.shortTTL == 0 then 24 * 3600 * 1_000_000_000 else cfg.shortTTL
  }

  /** The tombstone's time has not come: the long time-to-live runs from the merge, or from completion if
      the merge has no time, and the short one from completion while nothing is merged. */
  predicate Unexpired(cfg: Config, r: RJob, now: Time)
    requires r.completedAt.Some?
  {
    if r.prMerged && r.prMergedAt.Some? then now < r.prMergedAt.value + cfg.ttl
    else if r.prMerged then now < r.completedAt.value + cfg.ttl
    else now < r.completedAt.value + UnmergedTTL(cfg)
  }

  /** Tombstones hold: in every run, as long as the tombstone's time has not come, the tombstone is
      still there and no other rjob of its fingerprint is. The short time-to-live must not exceed the
      long one, since a merge may extend an unmerged tombstone. */
  lemma TombstoneHolds(cfg: Config, env: Env, s: State, steps: seq<Step>, n: string)
    requires Inv(cfg, env, s) && LegalRun(cfg, env, s, steps) && UnmergedTTL(cfg) <= cfg.ttl
    requires n in s.store.rjobs && s.store.rjobs[n].phase == Succeeded
    ensures s.store.rjobs[n].completedAt.Some?
    ensures var r, t := s.store.rjobs[n], Run(cfg, s, steps);
            Unexpired(cfg, r, t.now) ==>
              && Present(t.store, r) && t.store.rjobs[n].phase == Succeeded
              && forall m :: m in t.store.rjobs && t.store.rjobs[m].fingerprint == r.fingerprint ==> t.store.rjobs[m].uid == r.uid
  {
    var r, t := s.store.rjobs[n], Run(cfg, s, steps);
    assert Sound(cfg, r, s.now);
    StoredFate(cfg, env, s, n);
    assert Fate(cfg, s.now, r, t.store, t.now) by {
      RunFate(cfg, env, s, steps, s.now, r);
    }
    if !Present(t.store, r) {
      RemovedAfterDeadline(cfg, s.now, r, t.now);
    }
    assert WellKeyed(t.store) by {
      RunKeepsInv(cfg, env, s, steps);
    }
  }

  /** And they end: a reconcile of a tombstone deletes it if and only if its time has come, and changes
      nothing else. One without a completion time is given the present. */
  lemma TombstoneEnds(cfg: Config, s: Store, name: string, now: Time, view: View)
    requires name in s.rjobs && s.rjobs[name].phase == Succeeded
    ensures var r, t := s.rjobs[name], CommitAll(s, Plan(cfg, s, name, now, view));
            if r.completedAt.None? then t == s.(rjobs := s.rjobs[name := r.(completedAt := Some(now))])
            else if Unexpired(cfg, r, now) then t == s
            else t == s.(rjobs := s.rjobs - {name})
  {
    CommitOne(s, Remove(name));
    CommitOne(s, SetCompleted(name, now));
  }

  /** A tombstone that is gone outlived its deadline. */
  lemma RemovedAfterDeadline(cfg: Config, since: Time, r: RJob, now: Time)
    requires Gone(cfg, since, r, now) && r.phase == Succeeded && r.completedAt.Some? && r.completedAt.value <= since
    requires UnmergedTTL(cfg) <= cfg.ttl
    ensures !Unexpired(cfg, r, now)
  {
    var last, at :| at <= now && Evolves(since, r, last) && Removable(cfg, last, at);
    assert last.completedAt == r.completedAt;
  }

  /** What each controller does at `now` with a Succeeded rjob whose pull request is not found
      merged: the one keeps or deletes it, the other suppresses the finding or deletes it. */
  predicate ControllerKeeps(cfg: Config, s: Store, name: string, now: Time, view: View) {
    Remove(name) !in Plan(cfg, s, name, now, view)
  }

  predicate ProviderSuppresses(cfg: Config, r: RJob, now: Time) {
    Remove(r.name) !in DedupWrites(cfg, [r], now, false)
  }

  /** The two controllers agree on an unmerged tombstone at every instant exactly when its completion
      time is recorded. Without one the controller keeps the object and the provider deletes it. */
  lemma ControllersAgree(cfg: Config, s: Store, name: string, view: View)
    requires name in s.rjobs && s.rjobs[name].name == name
    requires s.rjobs[name].phase == Succeeded && !s.rjobs[name].prMerged
    ensures (forall now :: ControllerKeeps(cfg, s, name, now, view) <==> ProviderSuppresses(cfg, s.rjobs[name], now))
            <==> s.rjobs[name].completedAt.Some?
  {
    var r := s.rjobs[name];
    forall now ensures DedupWrites(cfg, [r], now, false) == TombstoneWrites(cfg, r, now, false) {
    }
    if r.completedAt.None? {
      assert ControllerKeeps(cfg, s, name, 0, view) && !ProviderSuppresses(cfg, r, 0);
    }
  }

  // ---- Retries, ranks ----

  /** In every reachable state the retry count is at most one, one means the Job was exhausted, and
      reaching the cap means permanent failure. */
  lemma RetryAccounting(cfg: Config, env: Env, s: State, steps: seq<Step>, n: string)
    requires Initial(s) && LegalRun(cfg, env, s, steps) && n in Run(cfg, s, steps).store.rjobs
    ensures var r := Run(cfg, s, steps).store.rjobs[n];
            && 0 <= r.retryCount <= 1
            && (r.retryCount == 1 ==> r.phase == Failed || r.phase == PermanentlyFailed)
            && (r.retryCount >= EffectiveMaxRetries(r) ==> r.phase == PermanentlyFailed)
  {
    InitialInv(cfg, env, s);
    RunKeepsInv(cfg, env, s, steps);
    assert Sound(cfg, Run(cfg, s, steps).store.rjobs[n], Run(cfg, s, steps).now);
  }

  /** The retry count of one incarnation moves by one exactly when it goes from a live phase to Failed,
      and never twice. */
  lemma RetriesMoveOnce(cfg: Config, env: Env, s: State, steps: seq<Step>, n: string)
    requires Inv(cfg, env, s) && LegalRun(cfg, env, s, steps) && n in s.store.rjobs
    ensures var r, t := s.store.rjobs[n], Run(cfg, s, steps).store;
            Present(t, r) ==> RetriesMove(r, t.rjobs[n]) && (!Live(r.phase) ==> t.rjobs[n].retryCount == r.retryCount)
  {
    StoredFate(cfg, env, s, n);
    RunFate(cfg, env, s, steps, s.now, s.store.rjobs[n]);
  }

  /** Contrary to the documented lifecycle, a retry cap of two or more is never reached: without
      injection suppression no run makes an rjob permanently failed. */
  lemma CapAboveOneNeverReached(cfg: Config, env: Env, s: State, steps: seq<Step>, n: string)
    requires Initial(s) && LegalRun(cfg, env, s, steps) && n in Run(cfg, s, steps).store.rjobs
    requires !cfg.suppressInjection && cfg.maxRetries != 1
    ensures Run(cfg, s, steps).store.rjobs[n].phase != PermanentlyFailed
  {
    InitialInv(cfg, env, s);
    RunKeepsInv(cfg, env, s, steps);
    assert Sound(cfg, Run(cfg, s, steps).store.rjobs[n], Run(cfg, s, steps).now);
  }

  /** Of two coexisting rjobs with one parent, the one of lower rank was created first. */
  lemma LowerRankCameFirst(cfg: Config, env: Env, s: State, steps: seq<Step>, n: string, m: string)
    requires Initial(s) && LegalRun(cfg, env, s, steps)
    requires n in Run(cfg, s, steps).store.rjobs && m in Run(cfg, s, steps).store.rjobs
    requires var a, b := Run(cfg, s, steps).store.rjobs[n].finding, Run(cfg, s, steps).store.rjobs[m].finding;
             a.namespace == b.namespace && a.parent == b.parent != ""
             && KindHierarchyRank(a.kind) < KindHierarchyRank(b.kind)
    ensures Run(cfg, s, steps).store.rjobs[n].uid < Run(cfg, s, steps).store.rjobs[m].uid
    ensures Run(cfg, s, steps).store.rjobs[n].created <= Run(cfg, s, steps).store.rjobs[m].created
  {
    InitialInv(cfg, env, s);
    RunKeepsInv(cfg, env, s, steps);
    var t := Run(cfg, s, steps).store;
    assert Covers(t.rjobs[n].finding)(t.rjobs[m]);
  }
}
