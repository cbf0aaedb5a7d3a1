/** What a single write may do. Both reconcilers are shown to issue only enabled writes, at every
    stop point, so whatever enabled writes preserve holds of every run. */
module Lifecycle {
  import opened Types
  import opened Seqs
  import opened Stores
  import opened Controller
  import opened Provider

  /** Objects are stored under the names their fingerprints give them, and UIDs are unique. */
  ghost predicate WellKeyed(s: Store) {
    && (forall n :: n in s.rjobs ==>
          s.rjobs[n].name == n && |s.rjobs[n].fingerprint| >= 12 && n == RJobName(s.rjobs[n].fingerprint))
    && (forall n, m :: n in s.rjobs && m in s.rjobs && s.rjobs[n].uid == s.rjobs[m].uid ==> n == m)
    && (forall j :: j in s.jobs ==> JobKeyed(s.jobs[j], j))
  }

  ghost predicate JobKeyed(job: Job, j: string) {
    job.name == j && job.name == "mechanic-agent-" + job.fp12 && job.rjobLabel == "mechanic-" + job.fp12
  }

  predicate Waiting(p: Phase) {
    p == Blank || p == Pending
  }

  /** May still be synced from a Job. */
  predicate Live(p: Phase) {
    Waiting(p) || p == Dispatched || p == Running
  }

  // ---- Listing a well-keyed store ----

  lemma {:induction false} RJobListed(order: seq<string>, s: Store, x: RJob)
    requires WellKeyed(s)
    ensures multiset(Listing(order, s.rjobs))[x] ==
            if x.name in s.rjobs && s.rjobs[x.name] == x then multiset(order)[x.name] else 0
  {
    if order != [] {
      var front, last := order[..|order| - 1], order[|order| - 1];
      RJobListed(front, s, x);
      assert order == front + [last];
    }
  }

  lemma {:induction false} JobListed(order: seq<string>, s: Store, x: Job)
    requires WellKeyed(s)
    ensures multiset(Listing(order, s.jobs))[x] ==
            if x.name in s.jobs && s.jobs[x.name] == x then multiset(order)[x.name] else 0
  {
    if order != [] {
      var front, last := order[..|order| - 1], order[|order| - 1];
      JobListed(front, s, x);
      assert order == front + [last];
    }
  }

  /** Every stored rjob is listed once and nothing else is. */
  lemma ListsRJob(order: seq<string>, s: Store, x: RJob)
    requires WellKeyed(s) && Enumerates(order, s.rjobs)
    ensures multiset(Listing(order, s.rjobs))[x] == if x.name in s.rjobs && s.rjobs[x.name] == x then 1 else 0
    ensures x in Listing(order, s.rjobs) <==> x.name in s.rjobs && s.rjobs[x.name] == x
  {
    RJobListed(order, s, x);
    assert x in Listing(order, s.rjobs) <==> x in multiset(Listing(order, s.rjobs));
  }

  lemma ListsJob(order: seq<string>, s: Store, x: Job)
    requires WellKeyed(s) && Enumerates(order, s.jobs)
    ensures multiset(Listing(order, s.jobs))[x] == if x.name in s.jobs && s.jobs[x.name] == x then 1 else 0
    ensures x in Listing(order, s.jobs) <==> x.name in s.jobs && s.jobs[x.name] == x
  {
    JobListed(order, s, x);
    assert x in Listing(order, s.jobs) <==> x in multiset(Listing(order, s.jobs));
  }

  /** No element occurs twice. */
  ghost predicate Distinct<T(!new)>(xs: seq<T>) {
    forall x :: multiset(xs)[x] <= 1
  }

  lemma DistinctFront<T(!new)>(ms: seq<T>)
    requires Distinct(ms) && ms != []
    ensures Distinct(ms[..|ms| - 1]) && ms[|ms| - 1] !in ms[..|ms| - 1]
  {
    var front, last := ms[..|ms| - 1], ms[|ms| - 1];
    assert ms == front + [last];
    forall x ensures multiset(front)[x] <= 1 {
      assert multiset(ms)[x] <= 1;
    }
    assert multiset(ms)[last] == multiset(front)[last] + 1;
  }

  /** Whatever is filtered out of the listed rjobs is stored, passes the test, and occurs once. */
  lemma FilteredListing(keep: RJob -> bool, order: seq<string>, s: Store)
    requires WellKeyed(s) && Enumerates(order, s.rjobs)
    ensures Distinct(Filter(keep, Listing(order, s.rjobs)))
    ensures forall x :: x in Filter(keep, Listing(order, s.rjobs)) <==>
                          x.name in s.rjobs && s.rjobs[x.name] == x && keep(x)
  {
    forall x
      ensures multiset(Filter(keep, Listing(order, s.rjobs)))[x] <= 1
      ensures x in Filter(keep, Listing(order, s.rjobs)) <==>
                x.name in s.rjobs && s.rjobs[x.name] == x && keep(x)
    {
      FilterCount(keep, Listing(order, s.rjobs), x);
      FilterMember(keep, Listing(order, s.rjobs), x);
      ListsRJob(order, s, x);
    }
  }

  /** Rjobs and Jobs are named after the same part of the fingerprint. */
  lemma SameJobName(a: string, b: string)
    requires |a| >= 12 && |b| >= 12
    ensures JobName(a) == JobName(b) <==> RJobName(a) == RJobName(b)
  {
    assert JobName(a)[15..] == a[..12] && JobName(b)[15..] == b[..12];
    assert RJobName(a)[9..] == a[..12] && RJobName(b)[9..] == b[..12];
  }

  /** An rjob's Job, and only it, carries the rjob's name as label. */
  lemma JobBelongs(s: Store, n: string, j: string)
    requires WellKeyed(s) && n in s.rjobs && j in s.jobs
    ensures s.jobs[j].rjobLabel == n <==> j == JobName(s.rjobs[n].fingerprint)
  {
    var fp, job := s.rjobs[n].fingerprint, s.jobs[j];
    assert job.rjobLabel[9..] == job.fp12 && RJobName(fp)[9..] == fp[..12];
    assert job.name[15..] == job.fp12 && JobName(fp)[15..] == fp[..12];
  }

  lemma OwnedCount(s: Store, n: string, view: View, x: Job)
    requires WellKeyed(s) && n in s.rjobs && ValidView(s, view)
    ensures var j := JobName(s.rjobs[n].fingerprint);
            multiset(OwnedJobs(s, n, view))[x] == if j in s.jobs && x == s.jobs[j] then 1 else 0
  {
    FilterCount(OwnedBy(n), Listing(view.jobOrder, s.jobs), x);
    ListsJob(view.jobOrder, s, x);
    if x.name in s.jobs {
      JobBelongs(s, n, x.name);
    }
  }

  lemma OnlyOne<T>(xs: seq<T>, x: T)
    requires multiset(xs) == multiset{x}
    ensures xs == [x]
  {
    assert |xs| == |multiset(xs)| == 1;
    assert xs == [xs[0]];
    assert multiset([xs[0]])[xs[0]] == 1;
  }

  /** At most one Job is owned, the one named after the rjob's fingerprint. */
  lemma OwnedIsJob(s: Store, n: string, view: View)
    requires WellKeyed(s) && n in s.rjobs && ValidView(s, view)
    ensures var owned, j := OwnedJobs(s, n, view), JobName(s.rjobs[n].fingerprint);
            if j in s.jobs then owned == [s.jobs[j]] else owned == []
  {
    var owned, j := OwnedJobs(s, n, view), JobName(s.rjobs[n].fingerprint);
    forall x ensures multiset(owned)[x] == if j in s.jobs && x == s.jobs[j] then 1 else 0 {
      OwnedCount(s, n, view, x);
    }
    if j in s.jobs {
      assert multiset(owned) == multiset{s.jobs[j]};
      OnlyOne(owned, s.jobs[j]);
    }
    assert owned != [] ==> multiset(owned)[owned[0]] > 0;
  }

  // ---- Enabled writes ----

  ghost predicate Removable(cfg: Config, r: RJob, now: Time) {
    r.phase == Cancelled || r.phase == Failed ||
    (r.phase == Succeeded && (r.completedAt.None? || now >= Deadline(cfg, r)))
  }

  ghost predicate NewlyMade(cfg: Config, r: RJob, uid: UID, now: Time) {
    |r.fingerprint| >= 12 && exists node :: r == NewRJob(cfg, r.finding, node, r.fingerprint, r.source, uid, now)
  }

  /** No rjob of higher rank exists for the finding's parent. */
  ghost predicate Uncovered(s: Store, f: Finding) {
    f.parent != "" ==> forall n :: n in s.rjobs ==> !Covers(f)(s.rjobs[n])
  }

  /** The API server has not assigned the UID before. */
  ghost predicate Unused(s: Store, uid: UID) {
    && (forall n :: n in s.rjobs ==> s.rjobs[n].uid < uid)
    && (forall i :: 0 <= i < |s.dispatched| ==> s.dispatched[i].ownerUID < uid)
  }

  /** The circumstances in which a controller issues the write; `uid` is the next one the API
      server assigns. */
  ghost predicate Enabled(cfg: Config, s: Store, now: Time, uid: UID, w: Write) {
    match w
    case InitPhase(n) => n in s.rjobs && s.rjobs[n].phase == Blank
    case SetCompleted(n, at) => n in s.rjobs && s.rjobs[n].phase == Succeeded && s.rjobs[n].completedAt.None? && at == now
    case SyncFrom(n, job, at) =>
      && n in s.rjobs && Live(s.rjobs[n].phase) && s.rjobs[n].phase != Blank && at == now
      && |s.rjobs[n].fingerprint| >= 12 && job.name == JobName(s.rjobs[n].fingerprint) && job.name in s.jobs && s.jobs[job.name] == job
    case SuppressStatus(n, g) => n in s.rjobs && s.rjobs[n].phase == Pending && g != ""
    case SuppressLabel(n, g) => n in s.rjobs && s.rjobs[n].phase == Suppressed && s.rjobs[n].groupID == g
    case SetGroup(n, g) => n in s.rjobs && s.rjobs[n].phase == Pending && g != ""
    case LabelPrimary(n, g) => n in s.rjobs && s.rjobs[n].phase == Pending && s.rjobs[n].groupID == g
    case FailPermanently(n) => n in s.rjobs && s.rjobs[n].phase == Pending && cfg.suppressInjection
    case AdoptJob(n, job) => false
    case MarkDispatched(n, j, at) =>
      && n in s.rjobs && s.rjobs[n].phase == Pending
      && |s.rjobs[n].fingerprint| >= 12 && j == JobName(s.rjobs[n].fingerprint) && j in s.jobs && s.jobs[j].ownerUID == s.rjobs[n].uid
    case MarkCancelled(n) => n in s.rjobs && Cancellable(s.rjobs[n].phase)
    case ConfirmMerged(n, at) => n in s.rjobs && s.rjobs[n].phase == Succeeded && !s.rjobs[n].prMerged && at == now
    case Remove(n) => n in s.rjobs && Removable(cfg, s.rjobs[n], now)
    case CreateJob(job) =>
      && job.rjobLabel in s.rjobs && s.rjobs[job.rjobLabel].phase == Pending && job.name !in s.jobs
      && |s.rjobs[job.rjobLabel].fingerprint| >= 12 && job == BuildJob(s.rjobs[job.rjobLabel], job.correlated, now)
    case CreateRJob(r) =>
      NewlyMade(cfg, r, uid, now) && Uncovered(s, r.finding) && !TooDeep(cfg, r.finding) && Unused(s, uid)
  }

  /** Each write is enabled when its turn comes. */
  ghost predicate AllEnabled(cfg: Config, s: Store, now: Time, uid: UID, ws: seq<Write>) {
    ws != [] ==>
      && AllEnabled(cfg, s, now, uid, ws[..|ws| - 1])
      && Enabled(cfg, CommitAll(s, ws[..|ws| - 1]), now, uid, ws[|ws| - 1])
  }

  lemma {:induction false} EnabledAt(cfg: Config, s: Store, now: Time, uid: UID, ws: seq<Write>, k: nat)
    requires AllEnabled(cfg, s, now, uid, ws) && k < |ws|
    ensures Enabled(cfg, CommitAll(s, ws[..k]), now, uid, ws[k])
  {
    var front := ws[..|ws| - 1];
    if k < |front| {
      EnabledAt(cfg, s, now, uid, front, k);
      assert front[..k] == ws[..k] && front[k] == ws[k];
    }
  }

  lemma EnabledThen(cfg: Config, s: Store, now: Time, uid: UID, a: seq<Write>, b: seq<Write>)
    requires AllEnabled(cfg, s, now, uid, a) && AllEnabled(cfg, CommitAll(s, a), now, uid, b)
    ensures AllEnabled(cfg, s, now, uid, a + b)
  {
    EnabledFrom(cfg, s, CommitAll(s, a), now, uid, a, b);
  }

  lemma {:induction false} EnabledFrom(cfg: Config, s: Store, mid: Store, now: Time, uid: UID, a: seq<Write>, b: seq<Write>)
    requires mid == CommitAll(s, a) && AllEnabled(cfg, s, now, uid, a) && AllEnabled(cfg, mid, now, uid, b)
    ensures AllEnabled(cfg, s, now, uid, a + b)
  {
    if b == [] {
      assert a + b == a;
    } else {
      var front, w := b[..|b| - 1], b[|b| - 1];
      var last := CommitAll(mid, front);
      EnabledLast(cfg, mid, now, uid, b);
      EnabledFrom(cfg, s, mid, now, uid, a, front);
      EnabledNext(cfg, s, mid, last, now, uid, a, front, w);
      Reassemble(a, b);
    }
  }

  lemma EnabledLast(cfg: Config, s: Store, now: Time, uid: UID, ws: seq<Write>)
    requires AllEnabled(cfg, s, now, uid, ws) && ws != []
    ensures AllEnabled(cfg, s, now, uid, ws[..|ws| - 1]) && Enabled(cfg, CommitAll(s, ws[..|ws| - 1]), now, uid, ws[|ws| - 1])
  {
  }

  lemma Reassemble<T>(a: seq<T>, b: seq<T>)
    requires b != []
    ensures (a + b[..|b| - 1]) + [b[|b| - 1]] == a + b
  {
  }

  lemma EnabledNext(cfg: Config, s: Store, mid: Store, last: Store, now: Time, uid: UID, a: seq<Write>, front: seq<Write>, w: Write)
    requires mid == CommitAll(s, a) && last == CommitAll(mid, front)
    requires AllEnabled(cfg, s, now, uid, a + front) && Enabled(cfg, last, now, uid, w)
    ensures AllEnabled(cfg, s, now, uid, (a + front) + [w])
  {
    CommitConcat(s, a, front);
    EnabledSnoc(cfg, s, now, uid, a + front, w);
  }

  lemma EnabledSnoc(cfg: Config, s: Store, now: Time, uid: UID, ws: seq<Write>, w: Write)
    requires AllEnabled(cfg, s, now, uid, ws) && Enabled(cfg, CommitAll(s, ws), now, uid, w)
    ensures AllEnabled(cfg, s, now, uid, ws + [w])
  {
    assert (ws + [w])[..|ws|] == ws;
  }

  lemma OneEnabled(cfg: Config, s: Store, now: Time, uid: UID, w: Write)
    requires Enabled(cfg, s, now, uid, w)
    ensures AllEnabled(cfg, s, now, uid, [w])
    ensures CommitAll(s, [w]) == Commit(s, w)
  {
    CommitOne(s, w);
    assert [w][..0] == [];
    assert CommitAll(s, []) == s;
  }
}
