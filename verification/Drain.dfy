/** A cluster left alone drains: as long as every waiting rjob keeps being reconciled, all of them
    settle, and every finding ends up in a Job. */
module Drain {
  import opened Types
  import opened Seqs
  import opened Orders
  import opened Rules
  import opened Deadlock
  import opened Election
  import opened Stores
  import opened Controller
  import opened Lifecycle
  import opened Plans
  import opened Runs
  import opened Conservation
  import opened Ledger

  /** The rjobs that still wait. */
  function Queue(s: Store): map<string, RJob> {
    map n | n in s.rjobs && Waiting(s.rjobs[n].phase) :: s.rjobs[n]
  }

  function Blanks(s: Store): set<string> {
    set n | n in s.rjobs && s.rjobs[n].phase == Blank
  }

  function Pool(s: Store): set<RJob> {
    set n | n in s.rjobs && s.rjobs[n].phase == Pending :: s.rjobs[n]
  }

  /** How many turns the waiting rjobs still need: two for an untouched one, one for a Pending one. */
  function Backlog(s: Store): nat {
    |Queue(s).Keys| + |Blanks(s)|
  }

  /** Every waiting rjob is past its window, has no Job under its name and no interrupted attempt
      behind it; the same-node threshold is one the configuration accepts. */
  ghost predicate Ready(cfg: Config, s: State) {
    && (cfg.correlation.Some? ==> cfg.correlation.value > 0)
    && forall n :: n in Queue(s.store) ==>
         && |Queue(s.store)[n].fingerprint| >= 12 && JobName(Queue(s.store)[n].fingerprint) !in s.store.jobs
         && Queue(s.store)[n].groupID == ""
         && (cfg.window > 0 ==> s.now - Queue(s.store)[n].created >= cfg.window)
  }

  /** No new findings and no failures: reconciles complete, their pods read as `pods`, and no finding is
      held back as an injection. The concurrency gate may be open or closed. */
  ghost predicate Quiet(cfg: Config, pods: Pods, s: State, step: Step) {
    match step
    case Control(name, view, stop) =>
      && stop >= |Plan(cfg, s.store, name, s.now, view)|
      && view.pods == pods
      && !(view.injected && cfg.suppressInjection)
    case AgentSink(n, _) => n in s.store.rjobs && !Waiting(s.store.rjobs[n].phase)
    case Provide(_, _, _, _) => false
    case _ => true
  }

  ghost predicate QuietRun(cfg: Config, pods: Pods, s: State, steps: seq<Step>)
    decreases |steps|
  {
    steps != [] ==> Quiet(cfg, pods, s, steps[0]) && QuietRun(cfg, pods, Next(cfg, s, steps[0]), steps[1..])
  }

  // ---- What one reconcile does to the queue ----

  /** If the rjob is Pending, no Job is left over under its name and no earlier attempt left a group
      behind, and its finding is not suppressed as an injection. */
  predicate Clean(cfg: Config, s: Store, name: string, view: View) {
    name in s.rjobs && s.rjobs[name].phase == Pending ==>
      && |s.rjobs[name].fingerprint| >= 12 && JobName(s.rjobs[name].fingerprint) !in s.jobs
      && s.rjobs[name].groupID == ""
      && !(view.injected && cfg.suppressInjection)
  }

  /** The queue only shrinks, except that an untouched rjob becomes Pending; a new Job belongs to
      an rjob that no longer waits. */
  ghost predicate Settles(s: Store, t: Store, name: string) {
    && (forall n :: n in t.rjobs && Waiting(t.rjobs[n].phase) ==>
          && n in s.rjobs
          && (t.rjobs[n] == s.rjobs[n] ||
              (n == name && s.rjobs[n].phase == Blank && t.rjobs[n] == s.rjobs[n].(phase := Pending))))
    && (forall j :: j in t.jobs && j !in s.jobs ==>
          && name in s.rjobs && |s.rjobs[name].fingerprint| >= 12 && j == JobName(s.rjobs[name].fingerprint)
          && name in t.rjobs && !Waiting(t.rjobs[name].phase))
  }

  lemma FormedSettles(s: Store, mid: Store, t: Store, ms: seq<RJob>, r: RJob, gid: string, r': RJob)
    requires FormedStore(s, mid, ms, r, gid) && |r.fingerprint| >= 12 && s.rjobs[r.name] == r
    requires t.rjobs == mid.rjobs[r.name := r'] && !Waiting(r'.phase)
    requires t.jobs.Keys == mid.jobs.Keys + {JobName(r.fingerprint)}
    ensures Settles(s, t, r.name)
  {
  }

  /** Dispatching the primary of a group just formed. */
  lemma DispatchSettles(cfg: Config, s: Store, mid: Store, ms: seq<RJob>, r: RJob, gid: string,
                        findings: seq<Finding>, now: Time, injected: bool)
    requires FormedStore(s, mid, ms, r, gid) && |r.fingerprint| >= 12 && s.rjobs[r.name] == r && r.phase == Pending
    requires JobName(r.fingerprint) !in s.jobs && !(injected && cfg.suppressInjection)
    ensures var t := CommitAll(mid, DispatchWrites(cfg, s, r, findings, now, injected));
            Settles(s, t, r.name) && r.name in t.rjobs && t.rjobs[r.name].phase == Dispatched
  {
    var job := BuildJob(r, findings, now);
    var r' := mid.rjobs[r.name].(phase := Dispatched, jobRef := job.name, dispatchedAt := Some(now));
    var t := CommitAll(mid, DispatchWrites(cfg, s, r, findings, now, injected));
    DispatchEnabled(cfg, s, mid, now, 0, r, findings, injected);
    FormedSettles(s, mid, t, ms, r, gid, r');
  }

  lemma LeadSettles(cfg: Config, s: Store, r: RJob, g: Group, now: Time, view: View)
    requires WellKeyed(s) && ValidView(s, view) && view.nextGroup != "" && Clean(cfg, s, r.name, view)
    requires r.name in s.rjobs && s.rjobs[r.name] == r && r.phase == Pending
    ensures var t := CommitAll(s, LeadWrites(cfg, s, r, g, now, view));
            Settles(s, t, r.name) && r.name in t.rjobs && t.rjobs[r.name].phase == Dispatched
  {
    var gid := GroupIDFor(r, view.nextGroup);
    var form, d := FormWrites(s, r, g, gid, view), DispatchWrites(cfg, s, r, g.findings, now, view.injected);
    FormEnabled(cfg, s, now, 0, r, g, gid, view);
    DispatchSettles(cfg, s, CommitAll(s, form), Members(s, r, g, view), r, gid, g.findings, now, view.injected);
    CommitConcat(s, form, d);
  }

  lemma SoloSettles(cfg: Config, s: Store, r: RJob, now: Time, view: View)
    requires WellKeyed(s) && Clean(cfg, s, r.name, view)
    requires r.name in s.rjobs && s.rjobs[r.name] == r && r.phase == Pending && !Limited(cfg, s, now, view)
    ensures var t := CommitAll(s, SoloWrites(cfg, s, r, now, view));
            Settles(s, t, r.name) && r.name in t.rjobs && t.rjobs[r.name].phase == Dispatched
  {
    var job := BuildJob(r, [], now);
    assert CommitAll(s, SoloWrites(cfg, s, r, now, view)) ==
           Store(s.rjobs[r.name := r.(phase := Dispatched, jobRef := job.name, dispatchedAt := Some(now))],
                 s.jobs[job.name := job], s.dispatched + [job]) by {
      DispatchEnabled(cfg, s, s, now, 0, r, [], view.injected);
    }
  }

  lemma OtherSettles(cfg: Config, s: Store, name: string, now: Time, view: View)
    requires name in s.rjobs && s.rjobs[name].phase != Pending
    ensures var t := CommitAll(s, Plan(cfg, s, name, now, view));
            Settles(s, t, name) && (s.rjobs[name].phase == Blank ==> name in t.rjobs && t.rjobs[name].phase == Pending)
  {
    SettledPlan(cfg, s, name, now, view);
    var plan := Plan(cfg, s, name, now, view);
    if plan != [] {
      CommitOne(s, plan[0]);
    }
  }

  lemma PendingSettles(cfg: Config, s: Store, r: RJob, now: Time, view: View)
    requires WellKeyed(s) && ValidView(s, view) && view.nextGroup != "" && Clean(cfg, s, r.name, view)
    requires r.name in s.rjobs && s.rjobs[r.name] == r && r.phase == Pending
    ensures Settles(s, CommitAll(s, PendingWrites(cfg, s, r, now, view)), r.name)
  {
    match RouteOf(cfg, s, r, now, view)
    case Hold =>
      NothingSettles(s, r.name);
    case Recover =>
      assert false;
    case Solo =>
      GatedSoloSettles(cfg, s, r, now, view);
    case Lead(g) =>
      LeadSettles(cfg, s, r, g, now, view);
  }

  lemma GatedSoloSettles(cfg: Config, s: Store, r: RJob, now: Time, view: View)
    requires WellKeyed(s) && Clean(cfg, s, r.name, view) && r.name in s.rjobs && s.rjobs[r.name] == r && r.phase == Pending
    ensures Settles(s, CommitAll(s, SoloWrites(cfg, s, r, now, view)), r.name)
  {
    if Limited(cfg, s, now, view) {
      NothingSettles(s, r.name);
    } else {
      SoloSettles(cfg, s, r, now, view);
    }
  }

  lemma NothingSettles(s: Store, name: string)
    ensures Settles(s, CommitAll(s, []), name)
  {
  }

  lemma PlanSettles(cfg: Config, s: Store, name: string, now: Time, view: View)
    requires WellKeyed(s) && ValidView(s, view) && view.nextGroup != "" && Clean(cfg, s, name, view)
    ensures Settles(s, CommitAll(s, Plan(cfg, s, name, now, view)), name)
  {
    if name !in s.rjobs {
    } else if s.rjobs[name].phase == Pending {
      OwnedIsJob(s, name, view);
      PendingSettles(cfg, s, s.rjobs[name], now, view);
    } else {
      OtherSettles(cfg, s, name, now, view);
    }
  }

  // ---- What one step does to the backlog ----

  lemma QuietIsClean(cfg: Config, env: Env, pods: Pods, s: State, step: Step)
    requires Inv(cfg, env, s) && Ready(cfg, s) && Quiet(cfg, pods, s, step) && step.Control?
    ensures Clean(cfg, s.store, step.name, step.view)
  {
    if step.name in s.store.rjobs && s.store.rjobs[step.name].phase == Pending {
      assert step.name in Queue(s.store);
    }
  }

  lemma StepSettles(cfg: Config, env: Env, pods: Pods, s: State, step: Step)
    requires Inv(cfg, env, s) && Ready(cfg, s) && Legal(cfg, env, s, step) && Quiet(cfg, pods, s, step)
    ensures Settles(s.store, Next(cfg, s, step).store, if step.Control? then step.name else "")
    ensures step.Control? ==> Next(cfg, s, step).store == CommitAll(s.store, Plan(cfg, s.store, step.name, s.now, step.view))
    ensures Next(cfg, s, step).now >= s.now
  {
    if step.Control? {
      QuietIsClean(cfg, env, pods, s, step);
      var plan := Plan(cfg, s.store, step.name, s.now, step.view);
      assert Prefix(plan, step.stop) == plan;
      PlanSettles(cfg, s.store, step.name, s.now, step.view);
    }
  }

  lemma OneJobEach(s: Store, n: string, m: string)
    requires WellKeyed(s) && n in s.rjobs && m in s.rjobs
    requires JobName(s.rjobs[n].fingerprint) == JobName(s.rjobs[m].fingerprint)
    ensures n == m
  {
    SameJobName(s.rjobs[n].fingerprint, s.rjobs[m].fingerprint);
  }

  lemma StepKeepsReady(cfg: Config, env: Env, pods: Pods, s: State, step: Step)
    requires Inv(cfg, env, s) && Ready(cfg, s) && Legal(cfg, env, s, step) && Quiet(cfg, pods, s, step)
    ensures Ready(cfg, Next(cfg, s, step))
  {
    var t := Next(cfg, s, step);
    StepSettles(cfg, env, pods, s, step);
    forall n | n in Queue(t.store)
      ensures |Queue(t.store)[n].fingerprint| >= 12 && JobName(Queue(t.store)[n].fingerprint) !in t.store.jobs && Queue(t.store)[n].groupID == ""
      ensures cfg.window > 0 ==> t.now - Queue(t.store)[n].created >= cfg.window
    {
      assert n in Queue(s.store) && Queue(s.store)[n] == s.store.rjobs[n];
      var j := JobName(Queue(t.store)[n].fingerprint);
      if j in t.store.jobs {
        OneJobEach(s.store, n, step.name);
      }
    }
  }

  /** Either the backlog shrinks or the queue is left as it was. */
  lemma StepShrinks(cfg: Config, env: Env, pods: Pods, s: State, step: Step)
    requires Inv(cfg, env, s) && Ready(cfg, s) && Legal(cfg, env, s, step) && Quiet(cfg, pods, s, step)
    ensures var t := Next(cfg, s, step);
            Backlog(t.store) < Backlog(s.store) || (Queue(t.store) == Queue(s.store) && Backlog(t.store) == Backlog(s.store))
  {
    var t := Next(cfg, s, step).store;
    StepSettles(cfg, env, pods, s, step);
    ShrinksOrSame(s.store, t, if step.Control? then step.name else "");
  }

  lemma ShrinksOrSame(s: Store, t: Store, name: string)
    requires Settles(s, t, name)
    ensures Backlog(t) < Backlog(s) || (Queue(t) == Queue(s) && Backlog(t) == Backlog(s))
  {
    assert Queue(t).Keys <= Queue(s).Keys && Blanks(t) <= Blanks(s);
    SubsetShrinks(Queue(t).Keys, Queue(s).Keys);
    SubsetShrinks(Blanks(t), Blanks(s));
    if Queue(t).Keys == Queue(s).Keys && Blanks(t) == Blanks(s) {
      forall n | n in Queue(t) ensures Queue(t)[n] == Queue(s)[n] {
        assert n in Blanks(s) <==> n in Blanks(t);
      }
    }
  }

  lemma SubsetShrinks(a: set<string>, b: set<string>)
    requires a <= b
    ensures |a| < |b| || (a == b && |a| == |b|)
  {
    assert b == a + (b - a) && |b| == |a| + |b - a|;
  }

  lemma CleanBalances(cfg: Config, s: Store, name: string, now: Time, view: View, f: Finding)
    requires Clean(cfg, s, name, view)
    ensures Lost(cfg, s, name, now, view, f) == 0 && Regained(cfg, s, name, now, view, f) == 0
  {
  }

  lemma StepConserves(cfg: Config, env: Env, pods: Pods, s: State, step: Step, f: Finding)
    requires Inv(cfg, env, s) && Ready(cfg, s) && Legal(cfg, env, s, step) && Quiet(cfg, pods, s, step)
    ensures Held(Next(cfg, s, step).store, f) == Held(s.store, f)
  {
    match step
    case Control(name, view, _) =>
      StepSettles(cfg, env, pods, s, step);
      QuietIsClean(cfg, env, pods, s, step);
      FindingsConserved(cfg, s.store, name, s.now, view, f);
      CleanBalances(cfg, s.store, name, s.now, view, f);
    case AgentSink(n, url) =>
      WaitingPut(s.store.rjobs, n, s.store.rjobs[n].(sinkURL := url), f);
    case _ =>
  }

  // ---- Someone can always move ----

  ghost function ArenaOf(s: Store, threshold: int, pods: Pods): Arena {
    Arena(Pool(s), threshold, pods, (c: RJob) => Enumerated(Pool(s) - {c}))
  }

  lemma ArenaValid(s: Store, threshold: int, pods: Pods)
    requires WellKeyed(s) && threshold > 0 && ReadsCleanly(pods)
    ensures Valid(ArenaOf(s, threshold, pods))
  {
  }

  /** Every Pending rjob sees the rest of the pool as its peers. */
  lemma PeersArePool(s: Store, c: RJob, view: View)
    requires WellKeyed(s) && ValidView(s, view) && c in Pool(s)
    ensures multiset(Peers(s, c, view)) == multiset(Pool(s) - {c})
  {
    FilteredListing(PeerOf(c), view.order, s);
    var peers := Peers(s, c, view);
    forall x ensures multiset(peers)[x] == multiset(Pool(s) - {c})[x] {
      assert x in peers <==> x in multiset(peers);
      assert x in peers <==> x in Pool(s) - {c};
      assert multiset(peers)[x] <= 1;
    }
    assert multiset(peers) == multiset(Pool(s) - {c});
  }

  /** Whether an rjob is free does not depend on the identifier its group would get. */
  lemma IdentifierPlaysNoPart(threshold: int, c: RJob, peers: seq<RJob>, pods: Pods, id: string, id': string)
    ensures var v, w := Evaluate(DefaultRules(threshold), c, peers, pods, id), Evaluate(DefaultRules(threshold), c, peers, pods, id');
            && (v.NoGroup? <==> w.NoGroup?) && (v.Grouped? <==> w.Grouped?)
            && (v.Grouped? ==> v.group.primary == w.group.primary)
  {
    EvaluateDecides(threshold, c, peers, pods, id);
    EvaluateDecides(threshold, c, peers, pods, id');
  }

  /** An rjob the pool as a whole lets proceed is let proceed by its own reconcile. */
  lemma FreeToGo(s: Store, threshold: int, c: RJob, view: View)
    requires WellKeyed(s) && ValidView(s, view) && threshold > 0 && ReadsCleanly(view.pods)
    requires Proceeds(ArenaOf(s, threshold, view.pods), c)
    ensures var v := Evaluate(DefaultRules(threshold), c, Peers(s, c, view), view.pods, view.nextGroup);
            v.NoGroup? || (v.Grouped? && v.group.primary == c.uid)
  {
    var peers, canonical := Peers(s, c, view), Enumerated(Pool(s) - {c});
    PeersArePool(s, c, view);
    forall x | x in Elems([c] + canonical) ensures x in Pool(s) {
      assert x in canonical ==> x in multiset(canonical);
    }
    EvaluateOrderFree(DefaultRules(threshold), c, canonical, peers, view.pods, "");
    IdentifierPlaysNoPart(threshold, c, peers, view.pods, "", view.nextGroup);
  }

  /** May act at its next reconcile, whatever order its peers are listed in. */
  ghost predicate Mobile(cfg: Config, s: Store, pods: Pods, n: string) {
    n in s.rjobs && (s.rjobs[n].phase == Blank ||
      (s.rjobs[n].phase == Pending && (cfg.correlation.None? || Proceeds(ArenaOf(s, cfg.correlation.value, pods), s.rjobs[n]))))
  }

  lemma SomeoneMobile(cfg: Config, env: Env, pods: Pods, s: State) returns (n: string)
    requires Inv(cfg, env, s) && Ready(cfg, s) && ReadsCleanly(pods) && Queue(s.store).Keys != {}
    ensures n in Queue(s.store) && Mobile(cfg, s.store, pods, n)
  {
    n :| n in Queue(s.store);
    if s.store.rjobs[n].phase != Blank && cfg.correlation.Some? {
      ArenaValid(s.store, cfg.correlation.value, pods);
      assert s.store.rjobs[n] in Pool(s.store);
      var c := SomeoneProceeds(ArenaOf(s.store, cfg.correlation.value, pods));
      n := c.name;
    }
  }

  /** Its reconcile takes a mobile rjob forward. */
  lemma MobileMoves(cfg: Config, env: Env, pods: Pods, s: State, step: Step)
    requires Inv(cfg, env, s) && Ready(cfg, s) && Legal(cfg, env, s, step) && Quiet(cfg, pods, s, step)
    requires ReadsCleanly(pods) && step.Control? && Mobile(cfg, s.store, pods, step.name)
    requires !Limited(cfg, s.store, s.now, step.view)
    ensures Queue(Next(cfg, s, step).store) != Queue(s.store)
  {
    var n, view := step.name, step.view;
    var r, t := s.store.rjobs[n], Next(cfg, s, step).store;
    QuietIsClean(cfg, env, pods, s, step);
    StepSettles(cfg, env, pods, s, step);
    assert n in Queue(s.store) && Queue(s.store)[n] == r;
    if r.phase == Blank {
      OtherSettles(cfg, s.store, n, s.now, view);
      assert n in Queue(t) && Queue(t)[n].phase == Pending;
    } else {
      PendingMoves(cfg, s, n, view);
      assert n !in Queue(t);
    }
  }

  lemma PendingMoves(cfg: Config, s: State, n: string, view: View)
    requires WellKeyed(s.store) && Ready(cfg, s) && ValidView(s.store, view) && view.nextGroup != ""
    requires Clean(cfg, s.store, n, view) && !Limited(cfg, s.store, s.now, view) && ReadsCleanly(view.pods)
    requires Mobile(cfg, s.store, view.pods, n) && s.store.rjobs[n].phase == Pending
    ensures var t := CommitAll(s.store, Plan(cfg, s.store, n, s.now, view)); n in t.rjobs && t.rjobs[n].phase == Dispatched
  {
    var r := s.store.rjobs[n];
    assert Plan(cfg, s.store, n, s.now, view) == PendingWrites(cfg, s.store, r, s.now, view) by {
      OwnedIsJob(s.store, n, view);
    }
    MobileGoes(cfg, s, n, view);
    if RouteOf(cfg, s.store, r, s.now, view).Solo? {
      SoloSettles(cfg, s.store, r, s.now, view);
    } else {
      LeadSettles(cfg, s.store, r, RouteOf(cfg, s.store, r, s.now, view).group, s.now, view);
    }
  }

  /** A mobile Pending rjob leads or goes on its own. */
  lemma MobileGoes(cfg: Config, s: State, n: string, view: View)
    requires WellKeyed(s.store) && Ready(cfg, s) && ValidView(s.store, view) && ReadsCleanly(view.pods)
    requires Mobile(cfg, s.store, view.pods, n) && s.store.rjobs[n].phase == Pending
    ensures var route := RouteOf(cfg, s.store, s.store.rjobs[n], s.now, view); route.Solo? || route.Lead?
  {
    assert n in Queue(s.store);
    if cfg.correlation.Some? {
      FreeToGo(s.store, cfg.correlation.value, s.store.rjobs[n], view);
    }
  }

  // ---- Rounds ----

  lemma {:induction false} RunKeeps(cfg: Config, env: Env, pods: Pods, s: State, steps: seq<Step>, f: Finding)
    requires Inv(cfg, env, s) && Ready(cfg, s) && LegalRun(cfg, env, s, steps) && QuietRun(cfg, pods, s, steps)
    ensures var t := Run(cfg, s, steps);
            Inv(cfg, env, t) && Ready(cfg, t) && Held(t.store, f) == Held(s.store, f) && Backlog(t.store) <= Backlog(s.store)
    decreases |steps|
  {
    if steps != [] {
      StepKeepsInv(cfg, env, s, steps[0]);
      StepKeepsReady(cfg, env, pods, s, steps[0]);
      StepShrinks(cfg, env, pods, s, steps[0]);
      StepConserves(cfg, env, pods, s, steps[0], f);
      RunKeeps(cfg, env, pods, Next(cfg, s, steps[0]), steps[1..], f);
    }
  }

  /** The rjob is reconciled at least once when the concurrency gate is open. */
  ghost predicate Served(cfg: Config, s: State, steps: seq<Step>, n: string)
    decreases |steps|
  {
    steps != [] &&
    ((steps[0].Control? && steps[0].name == n && !Limited(cfg, s.store, s.now, steps[0].view))
     || Served(cfg, Next(cfg, s, steps[0]), steps[1..], n))
  }

  lemma SameQueueSameMobility(cfg: Config, s: Store, t: Store, pods: Pods, n: string)
    requires Mobile(cfg, s, pods, n) && Queue(t) == Queue(s)
    ensures Mobile(cfg, t, pods, n)
  {
    assert n in Queue(s) && n in Queue(t);
    PoolIn(s, t);
    PoolIn(t, s);
    if cfg.correlation.Some? {
      EqualArenas(Pool(s), s, t, cfg.correlation.value, pods, s.rjobs[n]);
    }
  }

  lemma PoolIn(s: Store, t: Store)
    requires Queue(s) == Queue(t)
    ensures Pool(s) <= Pool(t)
  {
    forall x | x in Pool(s) ensures x in Pool(t) {
      var n :| n in s.rjobs && s.rjobs[n].phase == Pending && s.rjobs[n] == x;
      assert n in Queue(s) && n in Queue(t) && Queue(t)[n] == x;
    }
  }

  lemma EqualArenas(pool: set<RJob>, s: Store, t: Store, threshold: int, pods: Pods, c: RJob)
    requires pool == Pool(s) == Pool(t)
    ensures Proceeds(ArenaOf(s, threshold, pods), c) <==> Proceeds(ArenaOf(t, threshold, pods), c)
  {
  }

  /** A run that serves a mobile rjob shrinks the backlog, at that point or before. */
  lemma {:induction false} Progress(cfg: Config, env: Env, pods: Pods, s: State, steps: seq<Step>, n: string)
    requires Inv(cfg, env, s) && Ready(cfg, s) && LegalRun(cfg, env, s, steps) && QuietRun(cfg, pods, s, steps)
    requires ReadsCleanly(pods) && Mobile(cfg, s.store, pods, n) && Served(cfg, s, steps, n)
    ensures Backlog(Run(cfg, s, steps).store) < Backlog(s.store)
    decreases |steps|
  {
    var step, t := steps[0], Next(cfg, s, steps[0]);
    StepKeepsInv(cfg, env, s, step);
    StepKeepsReady(cfg, env, pods, s, step);
    StepShrinks(cfg, env, pods, s, step);
    if Queue(t.store) != Queue(s.store) {
      var f: Finding :| true;
      RunKeeps(cfg, env, pods, t, steps[1..], f);
    } else {
      if step.Control? && step.name == n && !Limited(cfg, s.store, s.now, step.view) {
        MobileMoves(cfg, env, pods, s, step);
      }
      SameQueueSameMobility(cfg, s.store, t.store, pods, n);
      Progress(cfg, env, pods, t, steps[1..], n);
    }
  }

  /** A stretch of a run in which every waiting rjob is reconciled at least once with the gate open, and
      the pods read the same throughout. */
  datatype Round = Round(pods: Pods, steps: seq<Step>)

  ghost predicate FullRound(cfg: Config, env: Env, s: State, round: Round) {
    && ReadsCleanly(round.pods)
    && LegalRun(cfg, env, s, round.steps)
    && QuietRun(cfg, round.pods, s, round.steps)
    && forall n :: n in Queue(s.store) ==> Served(cfg, s, round.steps, n)
  }

  ghost predicate FullRounds(cfg: Config, env: Env, s: State, rounds: seq<Round>)
    decreases |rounds|
  {
    rounds != [] ==> FullRound(cfg, env, s, rounds[0]) && FullRounds(cfg, env, Run(cfg, s, rounds[0].steps), rounds[1..])
  }

  function RunRounds(cfg: Config, s: State, rounds: seq<Round>): State
    decreases |rounds|
  {
    if rounds == [] then s else RunRounds(cfg, Run(cfg, s, rounds[0].steps), rounds[1..])
  }

  lemma {:induction false} RoundsDrain(cfg: Config, env: Env, s: State, rounds: seq<Round>, f: Finding)
    requires Inv(cfg, env, s) && Ready(cfg, s) && FullRounds(cfg, env, s, rounds)
    ensures var t := RunRounds(cfg, s, rounds).store;
            Held(t, f) == Held(s.store, f) && (Backlog(t) == 0 || Backlog(t) + |rounds| <= Backlog(s.store))
    decreases |rounds|
  {
    if rounds != [] {
      var round := rounds[0];
      RunKeeps(cfg, env, round.pods, s, round.steps, f);
      if Queue(s.store).Keys != {} {
        var n := SomeoneMobile(cfg, env, round.pods, s);
        Progress(cfg, env, round.pods, s, round.steps, n);
      } else {
        assert Blanks(s.store) <= Queue(s.store).Keys;
      }
      RoundsDrain(cfg, env, Run(cfg, s, round.steps), rounds[1..], f);
    }
  }

  lemma NothingWaits(s: Store, f: Finding)
    requires Backlog(s) == 0
    ensures forall n :: n in s.rjobs ==> !Waiting(s.rjobs[n].phase)
    ensures WaitingCount(s.rjobs, f) == 0
  {
    assert Queue(s).Keys == {};
    forall n | n in s.rjobs ensures !Waiting(s.rjobs[n].phase) {
      assert n !in Queue(s);
    }
    assert WaitingNames(s.rjobs, f) == {};
  }

  /** Drain: after as many full rounds as the backlog is large no rjob waits any more, and each
      finding that was waiting rides in exactly one Job, however the lists were ordered, whichever
      rules matched, and whatever the Jobs did meanwhile. */
  lemma Drains(cfg: Config, env: Env, s: State, rounds: seq<Round>, f: Finding)
    requires Inv(cfg, env, s) && Ready(cfg, s) && FullRounds(cfg, env, s, rounds) && |rounds| >= Backlog(s.store)
    ensures var t := RunRounds(cfg, s, rounds).store;
            && (forall n :: n in t.rjobs ==> !Waiting(t.rjobs[n].phase))
            && CarriedCount(t.dispatched, f) == CarriedCount(s.store.dispatched, f) + WaitingCount(s.store.rjobs, f)
  {
    RoundsDrain(cfg, env, s, rounds, f);
    NothingWaits(RunRounds(cfg, s, rounds).store, f);
  }
}
