/** The whole system as a state machine: both reconcilers, each possibly stopping after any of its
    writes, and the environment around them. The theorems here hold of every run. */
module Runs {
  import opened Types
  import opened Rules
  import opened Stores
  import opened Controller
  import opened BoundedMaps
  import opened Provider
  import opened JobFindings
  import opened Lifecycle
  import opened Evolution
  import opened Plans

  /** What the providers did, in order: a fingerprint was recorded as first seen, a first-seen map
      was wiped, an rjob was created, or the whole process restarted. A creation notes the depth of the
      owner it came from. */
  datatype Event =
    | Recorded(p: nat, fp: string, at: Time)
    | Wiped(p: nat, at: Time)
    | Created(p: nat, fp: string, at: Time, critical: bool, depth: int, ownerDepth: Option<int>)
    | Restarted(at: Time)

  /** How the Job provider finds one of the watcher's own Jobs: which one, whether it is annotated to be
      skipped, suspended or complete, and whether its owner cannot be read. */
  datatype Watch = Watch(job: string, skipped: bool, suspended: bool, completed: bool, unreadable: bool)

  datatype State = State(
    store: Store,
    now: Time,
    nextUID: UID,
    groups: set<string>,
    memory: map<nat, Seen>,
    lastAllowed: Option<Time>,
    events: seq<Event>)

  /** `stop` is how many writes succeed before the API stops answering. A report about one of the
      watcher's own Jobs says in `origin` how it was found. A restart loses what the process remembered. */
  datatype Step =
    | Tick(elapsed: nat)
    | Control(name: string, view: View, stop: nat)
    | Provide(p: nat, look: Look, origin: Option<Watch>, stop: nat)
    | JobProgress(job: string, active: int, succeeded: int, failed: int)
    | JobCollect(job: string)
    | AgentSink(name: string, url: string)
    | Restart

  /** Optional assumptions about the environment: a Job is not collected before its owner was seen
      to leave Pending; a Job once judged inactive stays so. */
  datatype Env = Env(jobsSurvive: bool, noRevival: bool)

  function MemoryOf(cfg: Config, s: State, p: nat): Seen {
    if p in s.memory then s.memory[p] else NewFirstSeen(cfg, s.now)
  }

  function RefsOf(job: Job): seq<OwnerRef> {
    [OwnerRef(REMEDIATION_JOB, job.ownerName, job.ownerUID)]
  }

  function OwnerDepth(s: State, origin: Option<Watch>): Option<int> {
    if origin.Some? && origin.value.job in s.store.jobs && s.store.jobs[origin.value.job].ownerName in s.store.rjobs
    then Some(s.store.rjobs[s.store.jobs[origin.value.job].ownerName].finding.chainDepth)
    else None
  }

  function Watched(job: Job, w: Watch): WatchedJob {
    WatchedJob(w.skipped, RefsOf(job), true, w.suspended, job.failed, job.active, w.completed)
  }

  /** What the provider makes of the object. The Job provider extracts the finding of one of the
      watcher's own Jobs, and its depth; every other finding has depth zero. */
  function Perceived(s: State, look: Look, origin: Option<Watch>): Look {
    if !look.observed.Report? then look
    else if origin.None? then look.(observed := look.observed.(finding := look.observed.finding.(chainDepth := 0)))
    else if origin.value.job !in s.store.jobs then look.(observed := Unreadable)
    else
      var w, job := origin.value, s.store.jobs[origin.value.job];
      match Extract(Watched(job, w), s.store.rjobs, if w.unreadable then {job.ownerName} else {})
      case Nothing => look.(observed := FindingCleared)
      case ExtractError => look.(observed := Unreadable)
      case Extracted(depth) => look.(observed := look.observed.(finding := look.observed.finding.(chainDepth := depth)))
  }

  function Progressed(job: Job, active: int, succeeded: int, failed: int): Job {
    job.(active := active, succeeded := succeeded, failed := failed)
  }

  ghost predicate Legal(cfg: Config, env: Env, s: State, step: Step) {
    match step
    case Tick(_) => true
    case Control(_, view, _) => ValidView(s.store, view) && view.nextGroup != "" && view.nextGroup !in s.groups
    case Provide(p, look, origin, _) =>
      && Enumerates(look.order, s.store.rjobs) && look.uid == s.nextUID
      && (origin.Some? ==> origin.value.job in s.store.jobs)
      && (Perceived(s, look, origin).observed.Report? && MustEvict(Cleaned(MemoryOf(cfg, s, p), s.now), look.observed.fingerprint)
          ==> IsOldest(Cleaned(MemoryOf(cfg, s, p), s.now).data, look.victim))
    case JobProgress(j, active, succeeded, failed) =>
      && j in s.store.jobs
      && (env.noRevival && IsJobActive(Progressed(s.store.jobs[j], active, succeeded, failed), s.now)
          ==> IsJobActive(s.store.jobs[j], s.now))
    case JobCollect(j) =>
      && j in s.store.jobs
      && (env.jobsSurvive ==> forall n :: n in s.store.rjobs && s.store.rjobs[n].uid == s.store.jobs[j].ownerUID
                                          ==> !Waiting(s.store.rjobs[n].phase))
    case AgentSink(n, _) => n in s.store.rjobs
    case Restart => true
  }

  /** What a provider reconcile adds to the history. */
  function Noted(s: State, p: nat, look: Look, origin: Option<Watch>, before: Seen, after: Seen, store: Store): seq<Event> {
    match look.observed
    case Unreadable => []
    case SourceDeleted => [Wiped(p, s.now)]
    case FindingCleared => [Wiped(p, s.now)]
    case Report(f, _, fp, critical) =>
      (if after != before then [Recorded(p, fp, s.now)] else [])
      + (if |fp| >= 12 && RJobName(fp) in store.rjobs && store.rjobs[RJobName(fp)].uid == s.nextUID
         then [Created(p, fp, s.now, critical, f.chainDepth, OwnerDepth(s, origin))] else [])
  }

  function Next(cfg: Config, s: State, step: Step): State {
    match step
    case Tick(d) => s.(now := s.now + d)
    case Control(name, view, stop) =>
      s.(store := CommitAll(s.store, Prefix(Plan(cfg, s.store, name, s.now, view), stop)),
         groups := s.groups + {view.nextGroup})
    case Provide(p, raw, origin, stop) =>
      var look, before := Perceived(s, raw, origin), MemoryOf(cfg, s, p);
      var e := React(cfg, s.store, before, s.lastAllowed, look, s.now);
      var store := CommitAll(s.store, Prefix(e.writes, stop));
      State(store, s.now, s.nextUID + 1, s.groups, s.memory[p := e.firstSeen], e.lastAllowed,
            s.events + Noted(s, p, look, origin, before, e.firstSeen, store))
    case JobProgress(j, active, succeeded, failed) =>
      if j in s.store.jobs
      then s.(store := s.store.(jobs := s.store.jobs[j := Progressed(s.store.jobs[j], active, succeeded, failed)]))
      else s
    case JobCollect(j) => s.(store := s.store.(jobs := s.store.jobs - {j}))
    case AgentSink(n, url) =>
      if n in s.store.rjobs
      then s.(store := s.store.(rjobs := s.store.rjobs[n := s.store.rjobs[n].(sinkURL := url)]))
      else s
    case Restart => s.(memory := map[], lastAllowed := None, events := s.events + [Restarted(s.now)])
  }

  ghost predicate LegalRun(cfg: Config, env: Env, s: State, steps: seq<Step>)
    decreases |steps|
  {
    steps != [] ==> Legal(cfg, env, s, steps[0]) && LegalRun(cfg, env, Next(cfg, s, steps[0]), steps[1..])
  }

  function Run(cfg: Config, s: State, steps: seq<Step>): State
    decreases |steps|
  {
    if steps == [] then s else Run(cfg, Next(cfg, s, steps[0]), steps[1..])
  }

  /** An empty cluster, freshly started controllers. */
  predicate Initial(s: State) {
    s.store == Store(map[], map[], []) && s.groups == {} && s.memory == map[] && s.lastAllowed == None && s.events == []
  }

  // ---- The invariant ----

  ghost predicate StoreInv(cfg: Config, env: Env, s: Store, now: Time) {
    && WellKeyed(s)
    && (forall n :: n in s.rjobs ==> Sound(cfg, s.rjobs[n], now))
    && RankOrdered(s)
    && (env.jobsSurvive ==> DispatchedOnce(s))
  }

  ghost predicate Inv(cfg: Config, env: Env, s: State) {
    StoreInv(cfg, env, s.store, s.now) && Unused(s.store, s.nextUID)
  }

  lemma WriteKeepsInv(cfg: Config, env: Env, s: Store, now: Time, uid: UID, w: Write)
    requires StoreInv(cfg, env, s, now) && Unused(s, uid + 1) && Enabled(cfg, s, now, uid, w)
    ensures StoreInv(cfg, env, Commit(s, w), now) && Unused(Commit(s, w), uid + 1)
  {
    assert WellKeyed(Commit(s, w)) by {
      WriteKeepsKeys(cfg, s, now, uid, w);
    }
    assert RankOrdered(Commit(s, w)) by {
      forall n | n in s.rjobs ensures s.rjobs[n].created <= now {
        assert Sound(cfg, s.rjobs[n], now);
      }
      WriteKeepsRanks(cfg, s, now, uid, w);
    }
    assert env.jobsSurvive ==> DispatchedOnce(Commit(s, w)) by {
      if env.jobsSurvive {
        WriteDispatchesOnce(cfg, s, now, uid, w);
      }
    }
    WriteKeepsSound(cfg, s, now, uid, w);
    WriteKeepsBound(cfg, s, now, uid, w);
  }

  /** Any prefix of enabled writes keeps the invariant. */
  lemma {:induction false} WritesKeepInv(cfg: Config, env: Env, s: Store, now: Time, uid: UID, ws: seq<Write>, k: nat)
    requires StoreInv(cfg, env, s, now) && Unused(s, uid + 1) && AllEnabled(cfg, s, now, uid, ws) && k <= |ws|
    ensures StoreInv(cfg, env, CommitAll(s, ws[..k]), now) && Unused(CommitAll(s, ws[..k]), uid + 1)
  {
    if k > 0 {
      var mid, w := CommitAll(s, ws[..k - 1]), ws[k - 1];
      WritesKeepInv(cfg, env, s, now, uid, ws, k - 1);
      assert Enabled(cfg, mid, now, uid, w) by {
        EnabledAt(cfg, s, now, uid, ws, k - 1);
      }
      WriteKeepsInv(cfg, env, mid, now, uid, w);
      CommitStep(s, ws, k - 1);
    } else {
      assert ws[..0] == [];
    }
  }

  /** Which writes a reconcile step makes. */
  function WritesOf(cfg: Config, s: State, step: Step): seq<Write> {
    match step
    case Control(name, view, stop) => Plan(cfg, s.store, name, s.now, view)
    case Provide(p, look, origin, stop) =>
      React(cfg, s.store, MemoryOf(cfg, s, p), s.lastAllowed, Perceived(s, look, origin), s.now).writes
    case _ => []
  }

  lemma PerceivedKeeps(s: State, look: Look, origin: Option<Watch>)
    ensures Perceived(s, look, origin) == look.(observed := Perceived(s, look, origin).observed)
    ensures Perceived(s, look, origin).observed.SourceDeleted? <==> look.observed.SourceDeleted?
  {
  }

  lemma StepEnabled(cfg: Config, env: Env, s: State, step: Step)
    requires WellKeyed(s.store) && Unused(s.store, s.nextUID) && Legal(cfg, env, s, step)
    ensures AllEnabled(cfg, s.store, s.now, s.nextUID, WritesOf(cfg, s, step))
  {
    match step
    case Control(name, view, _) =>
      PlanEnabled(cfg, s.store, s.now, s.nextUID, name, view);
    case Provide(p, look, origin, _) =>
      PerceivedKeeps(s, look, origin);
      ReactEnabled(cfg, s.store, MemoryOf(cfg, s, p), s.lastAllowed, Perceived(s, look, origin), s.now);
    case _ =>
  }

  lemma UnusedAbove(s: Store, uid: UID)
    requires Unused(s, uid)
    ensures Unused(s, uid + 1)
  {
  }

  lemma WriteKeepsUnused(cfg: Config, s: Store, now: Time, uid: UID, w: Write)
    requires Enabled(cfg, s, now, uid, w) && Unused(s, uid) && !w.CreateRJob?
    ensures Unused(Commit(s, w), uid)
  {
    JobsAfter(cfg, s, now, uid, w);
    forall n | n in Commit(s, w).rjobs ensures Commit(s, w).rjobs[n].uid < uid {
      RJobsAfter(cfg, s, now, uid, w, n);
    }
  }

  /** A reconcile step that writes leaves UIDs below the next one: only creation uses one up. */
  lemma {:induction false} NoCreationNoUID(cfg: Config, s: Store, now: Time, uid: UID, ws: seq<Write>, k: nat)
    requires Unused(s, uid) && AllEnabled(cfg, s, now, uid, ws) && k <= |ws|
    requires forall w :: w in ws ==> !w.CreateRJob?
    ensures Unused(CommitAll(s, ws[..k]), uid)
  {
    if k > 0 {
      NoCreationNoUID(cfg, s, now, uid, ws, k - 1);
      CommitStep(s, ws, k - 1);
      EnabledAt(cfg, s, now, uid, ws, k - 1);
      var mid, w := CommitAll(s, ws[..k - 1]), ws[k - 1];
      assert w in ws;
      WriteKeepsUnused(cfg, mid, now, uid, w);
    } else {
      assert ws[..0] == [];
    }
  }

  /** Neither of these is the controller's to write. */
  predicate ProviderOnly(w: Write) {
    w.CreateRJob? || w.MarkCancelled? || w.ConfirmMerged?
  }

  lemma {:induction false} SuppressKinds(ms: seq<RJob>, gid: string)
    ensures forall w :: w in SuppressWrites(ms, gid) ==> w.SuppressStatus? || w.SuppressLabel?
  {
    if ms != [] {
      SuppressKinds(ms[..|ms| - 1], gid);
    }
  }

  lemma LeadKinds(cfg: Config, s: Store, r: RJob, g: Group, now: Time, view: View)
    ensures forall w :: w in LeadWrites(cfg, s, r, g, now, view) ==> !ProviderOnly(w)
  {
    SuppressKinds(Members(s, r, g, view), GroupIDFor(r, view.nextGroup));
  }

  lemma PendingKinds(cfg: Config, s: Store, r: RJob, now: Time, view: View)
    ensures forall w :: w in PendingWrites(cfg, s, r, now, view) ==> !ProviderOnly(w)
  {
    match RouteOf(cfg, s, r, now, view)
    case Lead(g) =>
      LeadKinds(cfg, s, r, g, now, view);
    case _ =>
  }

  lemma ControlKinds(cfg: Config, s: Store, name: string, now: Time, view: View)
    ensures forall w :: w in Plan(cfg, s, name, now, view) ==> !ProviderOnly(w)
  {
    if name in s.rjobs {
      PendingKinds(cfg, s, s.rjobs[name], now, view);
    }
  }

  lemma ControlKeepsInv(cfg: Config, env: Env, s: State, step: Step)
    requires Inv(cfg, env, s) && Legal(cfg, env, s, step) && step.Control?
    ensures Inv(cfg, env, Next(cfg, s, step))
  {
    var ws := Plan(cfg, s.store, step.name, s.now, step.view);
    StepEnabled(cfg, env, s, step);
    UnusedAbove(s.store, s.nextUID);
    var k := |Prefix(ws, step.stop)|;
    assert Prefix(ws, step.stop) == ws[..k];
    WritesKeepInv(cfg, env, s.store, s.now, s.nextUID, ws, k);
    ControlKinds(cfg, s.store, step.name, s.now, step.view);
    NoCreationNoUID(cfg, s.store, s.now, s.nextUID, ws, k);
  }

  lemma ProvideKeepsInv(cfg: Config, env: Env, s: State, step: Step)
    requires Inv(cfg, env, s) && Legal(cfg, env, s, step) && step.Provide?
    ensures Inv(cfg, env, Next(cfg, s, step))
  {
    var ws := WritesOf(cfg, s, step);
    StepEnabled(cfg, env, s, step);
    UnusedAbove(s.store, s.nextUID);
    var k := |Prefix(ws, step.stop)|;
    assert Prefix(ws, step.stop) == ws[..k];
    WritesKeepInv(cfg, env, s.store, s.now, s.nextUID, ws, k);
  }

  /** Every legal step keeps the invariant. */
  lemma StepKeepsInv(cfg: Config, env: Env, s: State, step: Step)
    requires Inv(cfg, env, s) && Legal(cfg, env, s, step)
    ensures Inv(cfg, env, Next(cfg, s, step))
  {
    match step
    case Tick(d) =>
    case Control(_, _, _) =>
      ControlKeepsInv(cfg, env, s, step);
    case Provide(_, _, _, _) =>
      ProvideKeepsInv(cfg, env, s, step);
    case JobProgress(_, _, _, _) =>
      JobChangeKeepsInv(cfg, env, s, step);
    case JobCollect(_) =>
      JobChangeKeepsInv(cfg, env, s, step);
    case AgentSink(n, url) =>
      SinkKeepsInv(cfg, env, s, n, url);
    case Restart =>
  }

  lemma JobChangeKeepsInv(cfg: Config, env: Env, s: State, step: Step)
    requires Inv(cfg, env, s) && Legal(cfg, env, s, step) && (step.JobProgress? || step.JobCollect?)
    ensures Inv(cfg, env, Next(cfg, s, step))
  {
    var t := Next(cfg, s, step).store;
    assert t.rjobs == s.store.rjobs && t.dispatched == s.store.dispatched;
    assert WellKeyed(t) by {
      forall j | j in t.jobs ensures JobKeyed(t.jobs[j], j) {
        assert JobKeyed(s.store.jobs[j], j);
      }
    }
    if env.jobsSurvive {
      JobChangeKeepsOnce(cfg, env, s, step);
    }
  }

  lemma JobChangeKeepsOnce(cfg: Config, env: Env, s: State, step: Step)
    requires DispatchedOnce(s.store) && env.jobsSurvive && Legal(cfg, env, s, step) && (step.JobProgress? || step.JobCollect?)
    ensures DispatchedOnce(Next(cfg, s, step).store)
  {
    var t := Next(cfg, s, step).store;
    forall i, n | 0 <= i < |t.dispatched| && n in t.rjobs && Waiting(t.rjobs[n].phase)
                  && t.rjobs[n].uid == t.dispatched[i].ownerUID
      ensures HasItsJob(t, t.rjobs[n])
    {
      assert HasItsJob(s.store, s.store.rjobs[n]);
    }
  }

  lemma SinkKeepsInv(cfg: Config, env: Env, s: State, n: string, url: string)
    requires Inv(cfg, env, s) && n in s.store.rjobs
    ensures Inv(cfg, env, Next(cfg, s, AgentSink(n, url)))
  {
    var t := s.store.(rjobs := s.store.rjobs[n := s.store.rjobs[n].(sinkURL := url)]);
    assert Next(cfg, s, AgentSink(n, url)) == s.(store := t);
    ResunkKeepsInv(cfg, env, s.store, t, s.now, s.nextUID);
  }

  lemma ResunkKeepsInv(cfg: Config, env: Env, s: Store, t: Store, now: Time, uid: UID)
    requires StoreInv(cfg, env, s, now) && Unused(s, uid) && t.jobs == s.jobs && t.dispatched == s.dispatched
    requires forall m :: m in t.rjobs ==> Resunk(s, t, m)
    ensures StoreInv(cfg, env, t, now) && Unused(t, uid)
  {
    ResunkKeepsSound(cfg, s, t, now);
    ResunkKeepsKeys(s, t);
    ResunkKeepsRanks(s, t);
    if env.jobsSurvive {
      ResunkKeepsOnce(s, t);
    }
    forall m | m in t.rjobs ensures t.rjobs[m].uid < uid {
      assert Resunk(s, t, m);
    }
  }

  /** Only the recorded pull request changed. */
  ghost predicate Resunk(s: Store, t: Store, m: string) {
    m in s.rjobs && m in t.rjobs && t.rjobs[m] == s.rjobs[m].(sinkURL := t.rjobs[m].sinkURL)
  }

  lemma ResunkKeepsSound(cfg: Config, s: Store, t: Store, now: Time)
    requires (forall m :: m in s.rjobs ==> Sound(cfg, s.rjobs[m], now)) && forall m :: m in t.rjobs ==> Resunk(s, t, m)
    ensures forall m :: m in t.rjobs ==> Sound(cfg, t.rjobs[m], now)
  {
    forall m | m in t.rjobs ensures Sound(cfg, t.rjobs[m], now) {
      assert Resunk(s, t, m);
      assert Sound(cfg, s.rjobs[m], now);
    }
  }

  lemma ResunkKeepsKeys(s: Store, t: Store)
    requires WellKeyed(s) && t.jobs == s.jobs && forall m :: m in t.rjobs ==> Resunk(s, t, m)
    ensures WellKeyed(t)
  {
    forall m | m in t.rjobs ensures t.rjobs[m].name == m && |t.rjobs[m].fingerprint| >= 12 && m == RJobName(t.rjobs[m].fingerprint) {
      assert Resunk(s, t, m);
    }
    forall m, k | m in t.rjobs && k in t.rjobs && t.rjobs[m].uid == t.rjobs[k].uid ensures m == k {
      assert Resunk(s, t, m) && Resunk(s, t, k);
    }
  }

  lemma ResunkKeepsRanks(s: Store, t: Store)
    requires RankOrdered(s) && forall m :: m in t.rjobs ==> Resunk(s, t, m)
    ensures RankOrdered(t)
  {
    forall m, k | m in t.rjobs && k in t.rjobs && Covers(t.rjobs[m].finding)(t.rjobs[k]) && t.rjobs[m].finding.parent != ""
      ensures t.rjobs[m].uid < t.rjobs[k].uid && t.rjobs[m].created <= t.rjobs[k].created
    {
      assert Resunk(s, t, m) && Resunk(s, t, k);
      assert Covers(s.rjobs[m].finding)(s.rjobs[k]);
    }
  }

  lemma ResunkKeepsOnce(s: Store, t: Store)
    requires DispatchedOnce(s) && t.jobs == s.jobs && t.dispatched == s.dispatched
    requires forall m :: m in t.rjobs ==> Resunk(s, t, m)
    ensures DispatchedOnce(t)
  {
    forall i, m | 0 <= i < |t.dispatched| && m in t.rjobs && Waiting(t.rjobs[m].phase) && t.rjobs[m].uid == t.dispatched[i].ownerUID
      ensures HasItsJob(t, t.rjobs[m])
    {
      assert Resunk(s, t, m);
      assert HasItsJob(s, s.rjobs[m]);
    }
  }

  lemma {:induction false} RunKeepsInv(cfg: Config, env: Env, s: State, steps: seq<Step>)
    requires Inv(cfg, env, s) && LegalRun(cfg, env, s, steps)
    ensures Inv(cfg, env, Run(cfg, s, steps))
    decreases |steps|
  {
    if steps != [] {
      StepKeepsInv(cfg, env, s, steps[0]);
      RunKeepsInv(cfg, env, Next(cfg, s, steps[0]), steps[1..]);
    }
  }
}
