/** The cap on concurrent Jobs: exactly when a reconcile keeps it, and that it always holds when
    correlation is off. */
module Capacity {
  import opened Types
  import opened Seqs
  import opened Stores
  import opened Controller
  import opened BoundedMaps
  import opened Provider
  import opened Lifecycle
  import opened Runs
  import opened Guarantees

  /** A Job takes up capacity: no pod succeeded, no more failed than the back-off limit allows, six by
      default, and some pod is active or failed, unless the Job is at most half an hour old. */
  predicate Busy(job: Job, now: Time) {
    && job.succeeded <= 0
    && job.failed <= (if job.backoffLimit.Some? then job.backoffLimit.value else 6)
    && (job.active != 0 || job.failed != 0 || now - job.created <= 30 * 60 * 1_000_000_000)
  }

  /** What the gate counts is what takes up capacity. */
  lemma ActiveIsBusy(job: Job, now: Time)
    ensures IsJobActive(job, now) <==> Busy(job, now)
  {
  }

  function ActiveNames(jobs: map<string, Job>, now: Time): set<string> {
    set j | j in jobs && Busy(jobs[j], now)
  }

  /** Counting over a list is counting the set. */
  lemma {:induction false} CountListed(order: seq<string>, jobs: map<string, Job>, now: Time)
    requires Distinct(order) && forall n :: n in order ==> n in jobs
    ensures |Filter(ActiveAt(now), Listing(order, jobs))| == |ActiveIn(order, jobs, now)|
  {
    if order != [] {
      var front, last := order[..|order| - 1], order[|order| - 1];
      DistinctFront(order);
      assert forall n :: n in front ==> n in order;
      assert last in order;
      CountListed(front, jobs, now);
      ListOneMore(front, last, jobs, now);
      assert order == front + [last];
    }
  }

  lemma ListOneMore(front: seq<string>, last: string, jobs: map<string, Job>, now: Time)
    requires last in jobs && last !in front
    ensures |Filter(ActiveAt(now), Listing(front + [last], jobs))| ==
            |Filter(ActiveAt(now), Listing(front, jobs))| + if IsJobActive(jobs[last], now) then 1 else 0
    ensures |ActiveIn(front + [last], jobs, now)| == |ActiveIn(front, jobs, now)| + if IsJobActive(jobs[last], now) then 1 else 0
  {
    assert (front + [last])[..|front|] == front;
    var items := Listing(front, jobs);
    assert (items + [jobs[last]])[..|items|] == items;
    assert ActiveIn(front + [last], jobs, now) == ActiveIn(front, jobs, now) + if IsJobActive(jobs[last], now) then {last} else {};
  }

  function ActiveIn(order: seq<string>, jobs: map<string, Job>, now: Time): set<string> {
    set n | n in order && n in jobs && IsJobActive(jobs[n], now)
  }

  lemma GateCounts(cfg: Config, s: Store, now: Time, view: View)
    requires ValidView(s, view)
    ensures Limited(cfg, s, now, view) <==> cfg.maxConcurrent != 0 && |ActiveNames(s.jobs, now)| >= cfg.maxConcurrent
  {
    forall n ensures n in view.jobOrder <==> n in s.jobs {
      assert n in view.jobOrder <==> n in multiset(view.jobOrder);
    }
    CountListed(view.jobOrder, s.jobs, now);
    assert ActiveIn(view.jobOrder, s.jobs, now) == ActiveNames(s.jobs, now);
  }

  lemma {:induction false} JobsUntouched(s: Store, ws: seq<Write>)
    requires forall w :: w in ws ==> !w.CreateJob?
    ensures CommitAll(s, ws).jobs == s.jobs && CommitAll(s, ws).dispatched == s.dispatched
  {
    if ws != [] {
      JobsUntouched(s, ws[..|ws| - 1]);
      assert ws[|ws| - 1] in ws;
    }
  }

  // ---- What a controller reconcile does to the Jobs ----

  /** The writes before the dispatch, and the findings dispatched, on the route taken. */
  function Preparation(s: Store, r: RJob, route: Route, view: View): seq<Write> {
    match route
    case Lead(g) => FormWrites(s, r, g, GroupIDFor(r, view.nextGroup), view)
    case Recover => if r.groupLabel == "" then [LabelPrimary(r.name, r.groupID)] else []
    case _ => []
  }

  /** `name` is Pending with no Job, its route dispatches, nothing suppresses it, and the API answers
      long enough for the Job to be created. Only an uncorrelated or resumed rjob heeds the cap. */
  predicate Dispatches(cfg: Config, s: Store, name: string, now: Time, view: View, stop: nat) {
    && name in s.rjobs && s.rjobs[name].phase == Pending
    && |s.rjobs[name].fingerprint| >= 12 && JobName(s.rjobs[name].fingerprint) !in s.jobs
    && !(view.injected && cfg.suppressInjection)
    && var r, route := s.rjobs[name], RouteOf(cfg, s, s.rjobs[name], now, view);
       route != Hold && (route.Lead? || !Limited(cfg, s, now, view)) && stop > |Preparation(s, r, route, view)|
  }

  /** The part of a dispatching reconcile up to and including the creation of the Job. */
  lemma DispatchSplit(s: Store, a: seq<Write>, job: Job, mark: Write, stop: nat)
    requires forall w :: w in a ==> !w.CreateJob?
    requires !mark.CreateJob? && job.name !in s.jobs
    ensures CommitAll(s, Prefix(a + [CreateJob(job), mark], stop)).jobs ==
            if stop > |a| then s.jobs[job.name := job] else s.jobs
  {
    var ws := a + [CreateJob(job), mark];
    if stop <= |a| {
      assert Prefix(ws, stop) == a[..stop];
      assert forall w :: w in a[..stop] ==> w in a;
      JobsUntouched(s, a[..stop]);
    } else {
      JobsUntouched(s, a);
      var rest := if stop == |a| + 1 then [] else [mark];
      assert Prefix(ws, stop) == a + ([CreateJob(job)] + rest);
      CommitConcat(s, a, [CreateJob(job)] + rest);
      CommitConcat(CommitAll(s, a), [CreateJob(job)], rest);
      JobsUntouched(CommitAll(CommitAll(s, a), [CreateJob(job)]), rest);
      CommitOne(CommitAll(s, a), CreateJob(job));
    }
  }

  lemma NoJobBefore(s: Store, r: RJob, route: Route, view: View)
    ensures forall w :: w in Preparation(s, r, route, view) ==> !w.CreateJob?
  {
    match route
    case Lead(g) =>
      SuppressKinds(Members(s, r, g, view), GroupIDFor(r, view.nextGroup));
    case _ =>
  }

  function FindingsFor(s: Store, r: RJob, route: Route, view: View): seq<Finding> {
    match route
    case Lead(g) => g.findings
    case Recover => Recovered(s, r, view)
    case _ => []
  }

  lemma PendingShape(cfg: Config, s: Store, r: RJob, now: Time, view: View)
    ensures var route := RouteOf(cfg, s, r, now, view);
            PendingWrites(cfg, s, r, now, view) ==
            if route == Hold then []
            else Preparation(s, r, route, view) +
                 (if route.Lead? || !Limited(cfg, s, now, view)
                  then DispatchWrites(cfg, s, r, FindingsFor(s, r, route, view), now, view.injected) else [])
  {
  }

  lemma PendingJobs(cfg: Config, s: Store, r: RJob, now: Time, view: View, stop: nat)
    requires |r.fingerprint| >= 12 && JobName(r.fingerprint) !in s.jobs
    ensures var route := RouteOf(cfg, s, r, now, view);
            var go := && !(view.injected && cfg.suppressInjection) && route != Hold
                      && (route.Lead? || !Limited(cfg, s, now, view)) && stop > |Preparation(s, r, route, view)|;
            CommitAll(s, Prefix(PendingWrites(cfg, s, r, now, view), stop)).jobs ==
            if go then var job := BuildJob(r, FindingsFor(s, r, route, view), now); s.jobs[job.name := job] else s.jobs
  {
    var route := RouteOf(cfg, s, r, now, view);
    var a := Preparation(s, r, route, view);
    var d := DispatchWrites(cfg, s, r, FindingsFor(s, r, route, view), now, view.injected);
    var ws := PendingWrites(cfg, s, r, now, view);
    PendingShape(cfg, s, r, now, view);
    NoJobBefore(s, r, route, view);
    if route != Hold && (route.Lead? || !Limited(cfg, s, now, view)) && !(view.injected && cfg.suppressInjection) {
      var job := BuildJob(r, FindingsFor(s, r, route, view), now);
      assert d == [CreateJob(job), MarkDispatched(r.name, job.name, now)];
      DispatchSplit(s, a, job, d[1], stop);
    } else {
      assert forall w :: w in Prefix(ws, stop) ==> w in ws;
      JobsUntouched(s, Prefix(ws, stop));
    }
  }

  lemma ControlJobs(cfg: Config, s: Store, name: string, now: Time, view: View, stop: nat)
    requires WellKeyed(s) && ValidView(s, view)
    ensures var jobs := CommitAll(s, Prefix(Plan(cfg, s, name, now, view), stop)).jobs;
            if Dispatches(cfg, s, name, now, view, stop) then
              var r := s.rjobs[name];
              var job := BuildJob(r, FindingsFor(s, r, RouteOf(cfg, s, r, now, view), view), now);
              jobs == s.jobs[job.name := job]
            else jobs == s.jobs
  {
    if name in s.rjobs {
      OwnedIsJob(s, name, view);
      var r, ws := s.rjobs[name], Plan(cfg, s, name, now, view);
      if r.phase == Pending && JobName(r.fingerprint) !in s.jobs {
        assert ws == PendingWrites(cfg, s, r, now, view);
        PendingJobs(cfg, s, r, now, view, stop);
      } else {
        assert forall w :: w in Prefix(ws, stop) ==> w in ws;
        JobsUntouched(s, Prefix(ws, stop));
      }
    }
  }

  /** Until its correlation window has passed, a Pending rjob without a Job is left alone. */
  lemma HeldWithinWindow(cfg: Config, s: Store, name: string, now: Time, view: View)
    requires WellKeyed(s) && ValidView(s, view) && name in s.rjobs && s.rjobs[name].phase == Pending
    requires cfg.correlation.Some? && 0 <= now - s.rjobs[name].created < cfg.window
    requires JobName(s.rjobs[name].fingerprint) !in s.jobs
    ensures Plan(cfg, s, name, now, view) == []
  {
    OwnedIsJob(s, name, view);
  }

  // ---- The cap ----

  /** The one way past the cap: the primary of a group dispatches without asking the gate. */
  predicate Bypasses(cfg: Config, s: Store, name: string, now: Time, view: View, stop: nat) {
    Dispatches(cfg, s, name, now, view, stop) && RouteOf(cfg, s, s.rjobs[name], now, view).Lead?
  }

  lemma NewJobCounts(jobs: map<string, Job>, r: RJob, findings: seq<Finding>, now: Time)
    requires |r.fingerprint| >= 12 && JobName(r.fingerprint) !in jobs
    ensures var job := BuildJob(r, findings, now);
            |ActiveNames(jobs[job.name := job], now)| == |ActiveNames(jobs, now)| + 1
  {
    var job := BuildJob(r, findings, now);
    assert ActiveNames(jobs[job.name := job], now) == ActiveNames(jobs, now) + {job.name};
  }

  /** A reconcile, stopped anywhere, keeps the cap if and only if it is not the dispatch of a group's
      primary at full capacity. */
  lemma CapKeptUnlessBypassed(cfg: Config, s: Store, name: string, now: Time, view: View, stop: nat)
    requires WellKeyed(s) && ValidView(s, view)
    requires cfg.maxConcurrent > 0 && |ActiveNames(s.jobs, now)| <= cfg.maxConcurrent
    ensures |ActiveNames(CommitAll(s, Prefix(Plan(cfg, s, name, now, view), stop)).jobs, now)| <= cfg.maxConcurrent
            <==> !(Bypasses(cfg, s, name, now, view, stop) && |ActiveNames(s.jobs, now)| == cfg.maxConcurrent)
  {
    ControlJobs(cfg, s, name, now, view, stop);
    GateCounts(cfg, s, now, view);
    if Dispatches(cfg, s, name, now, view, stop) {
      var r := s.rjobs[name];
      NewJobCounts(s.jobs, r, FindingsFor(s, r, RouteOf(cfg, s, r, now, view), view), now);
    }
  }

  /** The only writes a provider makes. */
  predicate ProviderMay(w: Write) {
    w.MarkCancelled? || w.ConfirmMerged? || w.Remove? || w.CreateRJob?
  }

  lemma {:induction false} CancelKinds(rs: seq<RJob>)
    ensures forall w :: w in CancelWrites(rs) ==> ProviderMay(w)
  {
    if rs != [] {
      CancelKinds(rs[..|rs| - 1]);
    }
  }

  lemma {:induction false} DedupKinds(cfg: Config, rs: seq<RJob>, now: Time, merged: bool)
    ensures forall w :: w in DedupWrites(cfg, rs, now, merged) ==> ProviderMay(w)
  {
    if rs != [] {
      DedupKinds(cfg, rs[1..], now, merged);
    }
  }

  lemma ProviderKinds(cfg: Config, s: Store, seen: Seen, last: Option<Time>, look: Look, now: Time)
    ensures forall w :: w in React(cfg, s, seen, last, look, now).writes ==> ProviderMay(w)
  {
    match look.observed
    case SourceDeleted =>
      CancelKinds(Filter(CancelledBy(look.source), Listing(look.order, s.rjobs)));
    case Report(_, _, fp, _) =>
      DedupKinds(cfg, Filter(SameFingerprint(fp), Listing(look.order, s.rjobs)), now, look.merged);
    case _ =>
  }

  /** What a provider's step writes, as far as it gets. */
  lemma ProvideWrites(cfg: Config, env: Env, s: State, step: Step) returns (ws: seq<Write>, k: nat)
    requires WellKeyed(s.store) && Unused(s.store, s.nextUID) && Legal(cfg, env, s, step) && step.Provide?
    ensures AllEnabled(cfg, s.store, s.now, s.nextUID, ws) && k <= |ws| && forall w :: w in ws ==> ProviderMay(w)
    ensures Next(cfg, s, step).store == CommitAll(s.store, ws[..k])
  {
    ws := WritesOf(cfg, s, step);
    k := |Prefix(ws, step.stop)|;
    StepEnabled(cfg, env, s, step);
    ProviderKinds(cfg, s.store, MemoryOf(cfg, s, step.p), s.lastAllowed, Perceived(s, step.look, step.origin), s.now);
    assert Prefix(ws, step.stop) == ws[..k];
  }

  lemma ProvideKeepsJobs(cfg: Config, s: State, step: Step)
    requires step.Provide?
    ensures Next(cfg, s, step).store.jobs == s.store.jobs && Next(cfg, s, step).now == s.now
  {
    var ws := WritesOf(cfg, s, step);
    ProviderKinds(cfg, s.store, MemoryOf(cfg, s, step.p), s.lastAllowed, Perceived(s, step.look, step.origin), s.now);
    assert forall w :: w in Prefix(ws, step.stop) ==> w in ws;
    JobsUntouched(s.store, Prefix(ws, step.stop));
  }

  /** No step but a reconcile makes a Job take up capacity. */
  lemma ElsewiseNoneBusier(cfg: Config, env: Env, s: State, step: Step, j: string)
    requires Legal(cfg, env, s, step) && env.noRevival && !step.Control? && !step.Provide?
    ensures var t := Next(cfg, s, step);
            j in t.store.jobs && Busy(t.store.jobs[j], t.now) ==> j in s.store.jobs && Busy(s.store.jobs[j], s.now)
  {
    if j in s.store.jobs {
      ActiveIsBusy(s.store.jobs[j], s.now);
    }
    if step.JobProgress? {
      ActiveIsBusy(Progressed(s.store.jobs[step.job], step.active, step.succeeded, step.failed), s.now);
    }
  }

  lemma ElsewiseFewer(cfg: Config, env: Env, s: State, step: Step)
    requires Legal(cfg, env, s, step) && env.noRevival && !step.Control? && !step.Provide?
    ensures var t := Next(cfg, s, step); ActiveNames(t.store.jobs, t.now) <= ActiveNames(s.store.jobs, s.now)
  {
    var t := Next(cfg, s, step);
    forall j | j in t.store.jobs && Busy(t.store.jobs[j], t.now) ensures j in s.store.jobs && Busy(s.store.jobs[j], s.now) {
      ElsewiseNoneBusier(cfg, env, s, step, j);
    }
  }

  lemma StepKeepsCap(cfg: Config, env: Env, s: State, step: Step)
    requires Inv(cfg, env, s) && Legal(cfg, env, s, step) && env.noRevival && cfg.correlation.None? && cfg.maxConcurrent > 0
    requires |ActiveNames(s.store.jobs, s.now)| <= cfg.maxConcurrent
    ensures var t := Next(cfg, s, step); |ActiveNames(t.store.jobs, t.now)| <= cfg.maxConcurrent
  {
    var t := Next(cfg, s, step);
    match step
    case Control(name, view, stop) =>
      CapKeptUnlessBypassed(cfg, s.store, name, s.now, view, stop);
    case Provide(_, _, _, _) =>
      ProvideKeepsJobs(cfg, s, step);
    case _ =>
      ElsewiseFewer(cfg, env, s, step);
      NoLarger(ActiveNames(t.store.jobs, t.now), ActiveNames(s.store.jobs, s.now));
  }

  lemma {:induction false} RunKeepsCap(cfg: Config, env: Env, s: State, steps: seq<Step>)
    requires Inv(cfg, env, s) && LegalRun(cfg, env, s, steps)
    requires env.noRevival && cfg.correlation.None? && cfg.maxConcurrent > 0
    requires |ActiveNames(s.store.jobs, s.now)| <= cfg.maxConcurrent
    ensures var t := Run(cfg, s, steps); |ActiveNames(t.store.jobs, t.now)| <= cfg.maxConcurrent
    decreases |steps|
  {
    if steps != [] {
      StepKeepsCap(cfg, env, s, steps[0]);
      StepKeepsInv(cfg, env, s, steps[0]);
      RunKeepsCap(cfg, env, Next(cfg, s, steps[0]), steps[1..]);
    }
  }

  /** With correlation off, no run ever has more active Jobs than the cap, as long as a Job judged
      inactive does not become active again. */
  lemma ConcurrencyCap(cfg: Config, env: Env, s: State, steps: seq<Step>)
    requires Initial(s) && LegalRun(cfg, env, s, steps)
    requires env.noRevival && cfg.correlation.None? && cfg.maxConcurrent > 0
    ensures var t := Run(cfg, s, steps); |ActiveNames(t.store.jobs, t.now)| <= cfg.maxConcurrent
  {
    assert ActiveNames(s.store.jobs, s.now) == {};
    RunKeepsCap(cfg, env, s, steps);
  }

  /** With correlation off, a Pending rjob without a Job is held if and only if the cap is set and reached. */
  lemma HeldAtCapacityIff(cfg: Config, s: Store, name: string, now: Time, view: View)
    requires WellKeyed(s) && ValidView(s, view) && cfg.correlation.None?
    requires name in s.rjobs && s.rjobs[name].phase == Pending && JobName(s.rjobs[name].fingerprint) !in s.jobs
    ensures Plan(cfg, s, name, now, view) == [] <==> cfg.maxConcurrent != 0 && |ActiveNames(s.jobs, now)| >= cfg.maxConcurrent
  {
    OwnedIsJob(s, name, view);
    GateCounts(cfg, s, now, view);
  }

  /** In particular as many Jobs with a running pod as the cap allows hold back every further one. */
  lemma RunningJobsFill(cfg: Config, s: Store, name: string, now: Time, view: View, running: set<string>)
    requires WellKeyed(s) && ValidView(s, view) && cfg.correlation.None? && |running| == cfg.maxConcurrent > 0
    requires forall j :: j in running ==> j in s.jobs && s.jobs[j].active > 0 && s.jobs[j].succeeded == 0 && s.jobs[j].failed == 0
    requires forall j :: j in running ==> (s.jobs[j].backoffLimit.Some? ==> s.jobs[j].backoffLimit.value >= 0)
    requires name in s.rjobs && s.rjobs[name].phase == Pending && JobName(s.rjobs[name].fingerprint) !in s.jobs
    ensures Plan(cfg, s, name, now, view) == []
  {
    HeldAtCapacityIff(cfg, s, name, now, view);
    NoLarger(running, ActiveNames(s.jobs, now));
  }

  // ---- With correlation on ----

  /** The names of Jobs created for the primary of a group, as of the last creation under each name. */
  function BypassingAfter(cfg: Config, s: State, step: Step, bypassing: set<string>): set<string> {
    if step.Control? && Dispatches(cfg, s.store, step.name, s.now, step.view, step.stop) then
      var j := JobName(s.store.rjobs[step.name].fingerprint);
      if Bypasses(cfg, s.store, step.name, s.now, step.view, step.stop) then bypassing + {j} else bypassing - {j}
    else bypassing
  }

  function Bypassing(cfg: Config, s: State, steps: seq<Step>, bypassing: set<string>): set<string>
    decreases |steps|
  {
    if steps == [] then bypassing
    else Bypassing(cfg, Next(cfg, s, steps[0]), steps[1..], BypassingAfter(cfg, s, steps[0], bypassing))
  }

  /** The Jobs that do count: active, and not created past the gate. */
  function Counted(jobs: map<string, Job>, now: Time, bypassing: set<string>): set<string> {
    ActiveNames(jobs, now) - bypassing
  }

  lemma NoLarger(a: set<string>, b: set<string>)
    requires a <= b
    ensures |a| <= |b|
  {
    assert b == a + (b - a);
  }

  lemma ControlKeepsCounted(cfg: Config, s: State, name: string, view: View, stop: nat, b: set<string>)
    requires WellKeyed(s.store) && ValidView(s.store, view) && cfg.maxConcurrent > 0
    requires |Counted(s.store.jobs, s.now, b)| <= cfg.maxConcurrent
    ensures var jobs := CommitAll(s.store, Prefix(Plan(cfg, s.store, name, s.now, view), stop)).jobs;
            |Counted(jobs, s.now, BypassingAfter(cfg, s, Control(name, view, stop), b))| <= cfg.maxConcurrent
  {
    ControlJobs(cfg, s.store, name, s.now, view, stop);
    GateCounts(cfg, s.store, s.now, view);
    var jobs := CommitAll(s.store, Prefix(Plan(cfg, s.store, name, s.now, view), stop)).jobs;
    var b' := BypassingAfter(cfg, s, Control(name, view, stop), b);
    if Bypasses(cfg, s.store, name, s.now, view, stop) {
      NoLarger(Counted(jobs, s.now, b'), Counted(s.store.jobs, s.now, b));
    } else if Dispatches(cfg, s.store, name, s.now, view, stop) {
      var j := JobName(s.store.rjobs[name].fingerprint);
      NoLarger(Counted(jobs, s.now, b'), ActiveNames(s.store.jobs, s.now) + {j});
    }
  }

  lemma StepKeepsCounted(cfg: Config, env: Env, s: State, step: Step, b: set<string>)
    requires Inv(cfg, env, s) && Legal(cfg, env, s, step) && env.noRevival && cfg.maxConcurrent > 0
    requires |Counted(s.store.jobs, s.now, b)| <= cfg.maxConcurrent
    ensures var t := Next(cfg, s, step); |Counted(t.store.jobs, t.now, BypassingAfter(cfg, s, step, b))| <= cfg.maxConcurrent
  {
    var t := Next(cfg, s, step);
    match step
    case Control(name, view, stop) =>
      ControlKeepsCounted(cfg, s, name, view, stop, b);
    case Provide(_, _, _, _) =>
      ProvideKeepsJobs(cfg, s, step);
    case _ =>
      ElsewiseFewer(cfg, env, s, step);
      NoLarger(Counted(t.store.jobs, t.now, b), Counted(s.store.jobs, s.now, b));
  }

  lemma {:induction false} RunKeepsCounted(cfg: Config, env: Env, s: State, steps: seq<Step>, b: set<string>)
    requires Inv(cfg, env, s) && LegalRun(cfg, env, s, steps) && env.noRevival && cfg.maxConcurrent > 0
    requires |Counted(s.store.jobs, s.now, b)| <= cfg.maxConcurrent
    ensures var t := Run(cfg, s, steps); |Counted(t.store.jobs, t.now, Bypassing(cfg, s, steps, b))| <= cfg.maxConcurrent
    decreases |steps|
  {
    if steps != [] {
      StepKeepsCounted(cfg, env, s, steps[0], b);
      StepKeepsInv(cfg, env, s, steps[0]);
      RunKeepsCounted(cfg, env, Next(cfg, s, steps[0]), steps[1..], BypassingAfter(cfg, s, steps[0], b));
    }
  }

  /** With correlation on or off, no run ever has more active Jobs than the cap and those created for the
      primary of a group, as long as a Job judged inactive does not become active again. */
  lemma CapPlusBypassing(cfg: Config, env: Env, s: State, steps: seq<Step>)
    requires Initial(s) && LegalRun(cfg, env, s, steps) && env.noRevival && cfg.maxConcurrent > 0
    ensures var t := Run(cfg, s, steps);
            var active := ActiveNames(t.store.jobs, t.now);
            |active| <= cfg.maxConcurrent + |active * Bypassing(cfg, s, steps, {})|
  {
    assert Counted(s.store.jobs, s.now, {}) == {};
    InitialInv(cfg, env, s);
    RunKeepsCounted(cfg, env, s, steps, {});
    var t, b := Run(cfg, s, steps), Bypassing(cfg, s, steps, {});
    var active := ActiveNames(t.store.jobs, t.now);
    assert active == (active - b) + (active * b);
  }

  /** A Job counts against the cap only while its owner would be synced to Dispatched or Running. */
  lemma TerminalJobsDoNotCount(job: Job, now: Time)
    requires SyncPhase(job) == Succeeded || SyncPhase(job) == Failed
    ensures !Busy(job, now)
  {
  }
}
