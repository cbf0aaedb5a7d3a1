/** The API server both controllers write to. A reconcile is a sequence of writes; stopping after
    any prefix of them is what a failed API call leaves behind. */
module Stores {
  import opened Types

  const SECOND: int := 1_000_000_000
  const HOUR: int := 3600 * SECOND

  /** Operator-wide settings. Durations are in nanoseconds; `correlation` holds the same-node
      threshold when correlation is enabled, and zero means "unlimited" or "off" where the
      operator says so. */
  datatype Config = Config(
    ttl: int,
    shortTTL: int,
    correlation: Option<int>,
    window: int,
    maxConcurrent: int,
    suppressInjection: bool,
    maxRetries: int,
    stabilisation: int,
    maxDepth: int,
    cooldown: int)

  /** RemediationJobs by name, Jobs by name, and every Job ever created, in order. */
  datatype Store = Store(rjobs: map<string, RJob>, jobs: map<string, Job>, dispatched: seq<Job>)

  datatype Write =
    | InitPhase(name: string)
    | SetCompleted(name: string, at: Time)
    | SyncFrom(name: string, job: Job, at: Time)
    | SuppressStatus(name: string, group: string)
    | SuppressLabel(name: string, group: string)
    | SetGroup(name: string, group: string)
    | LabelPrimary(name: string, group: string)
    | FailPermanently(name: string)
    | AdoptJob(name: string, job: Job)
    | MarkDispatched(name: string, jobName: string, at: Time)
    | MarkCancelled(name: string)
    | ConfirmMerged(name: string, at: Time)
    | Remove(name: string)
    | CreateJob(job: Job)
    | CreateRJob(rjob: RJob)

  function RJobName(fp: string): string
    requires |fp| >= 12
  {
    "mechanic-" + fp[..12]
  }

  function JobName(fp: string): string
    requires |fp| >= 12
  {
    "mechanic-agent-" + fp[..12]
  }

  // ---- Reading a Job ----

  function BackoffLimit(job: Job): int {
    if job.backoffLimit.Some? then job.backoffLimit.value else 6
  }

  predicate Exhausted(job: Job) {
    job.failed >= BackoffLimit(job) + 1
  }

  function SyncPhase(job: Job): Phase {
    if job.succeeded > 0 then Succeeded
    else if Exhausted(job) then Failed
    else if job.active > 0 then Running
    else Dispatched
  }

  const STALENESS: int := 1800 * SECOND

  predicate IsJobActive(job: Job, now: Time) {
    && job.succeeded <= 0
    && !Exhausted(job)
    && !(job.active == 0 && job.failed == 0 && now - job.created > STALENESS)
  }

  function EffectiveMaxRetries(r: RJob): int {
    if r.maxRetries <= 0 then 3 else r.maxRetries
  }

  /** The rjob after its owned Job's status is copied onto it. */
  function Synced(r: RJob, job: Job, now: Time): RJob {
    var phase := SyncPhase(job);
    var retries := if phase == Failed && r.phase != Failed then r.retryCount + 1 else r.retryCount;
    r.(phase := if phase == Failed && retries >= EffectiveMaxRetries(r) then PermanentlyFailed else phase,
       retryCount := retries,
       completedAt := if (phase == Succeeded || phase == Failed) && r.completedAt.None? then Some(now) else r.completedAt,
       jobRef := if r.jobRef == "" then job.name else r.jobRef)
  }

  // ---- Writes ----

  /** The effect of a patch on the object it names. */
  function Patch(r: RJob, w: Write): RJob {
    match w
    case InitPhase(_) => r.(phase := Pending)
    case SetCompleted(_, at) => r.(completedAt := Some(at))
    case SyncFrom(_, job, at) => Synced(r, job, at)
    case SuppressStatus(_, g) => r.(phase := Suppressed, groupID := g)
    case SuppressLabel(_, g) => r.(groupLabel := g, role := ROLE_CORRELATED)
    case SetGroup(_, g) => r.(groupID := g)
    case LabelPrimary(_, g) => r.(groupLabel := g, role := ROLE_PRIMARY)
    case FailPermanently(_) => r.(phase := PermanentlyFailed)
    case AdoptJob(_, job) => r.(phase := SyncPhase(job), jobRef := if r.jobRef == "" then job.name else r.jobRef)
    case MarkDispatched(_, j, at) => r.(phase := Dispatched, jobRef := j, dispatchedAt := Some(at))
    case MarkCancelled(_) => r.(phase := Cancelled)
    case ConfirmMerged(_, at) => r.(prMerged := true, prMergedAt := Some(at))
    case _ => r
  }

  predicate IsPatch(w: Write) {
    !w.Remove? && !w.CreateJob? && !w.CreateRJob?
  }

  /** A patch of a missing object and a create over an existing one change nothing. */
  function Commit(s: Store, w: Write): Store {
    match w
    case Remove(n) => s.(rjobs := s.rjobs - {n})
    case CreateJob(job) =>
      if job.name in s.jobs then s
      else s.(jobs := s.jobs[job.name := job], dispatched := s.dispatched + [job])
    case CreateRJob(r) =>
      if r.name in s.rjobs then s else s.(rjobs := s.rjobs[r.name := r])
    case _ =>
      if w.name in s.rjobs then s.(rjobs := s.rjobs[w.name := Patch(s.rjobs[w.name], w)]) else s
  }

  function CommitAll(s: Store, ws: seq<Write>): Store {
    if ws == [] then s else Commit(CommitAll(s, ws[..|ws| - 1]), ws[|ws| - 1])
  }

  lemma CommitStep(s: Store, ws: seq<Write>, k: nat)
    requires k < |ws|
    ensures CommitAll(s, ws[..k + 1]) == Commit(CommitAll(s, ws[..k]), ws[k])
  {
    assert ws[..k + 1][..k] == ws[..k];
  }

  lemma CommitOne(s: Store, w: Write)
    ensures CommitAll(s, [w]) == Commit(s, w)
  {
    assert [w][..0] == [];
    assert CommitAll(s, []) == s;
  }

  lemma {:induction false} CommitConcat(s: Store, a: seq<Write>, b: seq<Write>)
    ensures CommitAll(s, a + b) == CommitAll(CommitAll(s, a), b)
  {
    if b == [] {
      assert a + b == a;
    } else {
      var front := b[..|b| - 1];
      assert (a + b)[..|a + b| - 1] == a + front;
      CommitConcat(s, a, front);
    }
  }

  // ---- Lists ----

  /** The objects in the order the API happens to return them. */
  function Listing<T>(order: seq<string>, m: map<string, T>): seq<T> {
    if order == [] then []
    else
      var n := order[|order| - 1];
      Listing(order[..|order| - 1], m) + if n in m then [m[n]] else []
  }

  /** `order` names every object once. */
  ghost predicate Enumerates<T>(order: seq<string>, m: map<string, T>) {
    multiset(order) == multiset(m.Keys)
  }

  lemma {:induction false} ListingMember<T>(order: seq<string>, m: map<string, T>, x: T)
    ensures x in Listing(order, m) <==> exists n :: n in order && n in m && m[n] == x
  {
    if order != [] {
      var front, last := order[..|order| - 1], order[|order| - 1];
      ListingMember(front, m, x);
      assert order == front + [last];
    }
  }

  // ---- The cluster as an object ----

  /** The first `k` writes, or all of them. */
  function Prefix(ws: seq<Write>, k: nat): seq<Write> {
    ws[..if k < |ws| then k else |ws|]
  }

  /** From `before` with `left` writes that will still succeed, exactly the writes of `ws` that
      could be sent were sent. */
  ghost predicate Sent(before: Store, left: nat, after: Store, left': nat, ws: seq<Write>) {
    after == CommitAll(before, Prefix(ws, left)) && left' == left - |Prefix(ws, left)|
  }

  lemma SentThen(s0: Store, l0: nat, s1: Store, l1: nat, s2: Store, l2: nat, a: seq<Write>, b: seq<Write>)
    requires Sent(s0, l0, s1, l1, a) && Sent(s1, l1, s2, l2, b) && l0 >= |a|
    ensures Sent(s0, l0, s2, l2, a + b)
  {
    CommitConcat(s0, a, Prefix(b, l1));
    assert Prefix(a, l0) == a;
    assert Prefix(a + b, l0) == a + Prefix(b, l1);
  }

  lemma SentShort(s0: Store, l0: nat, s1: Store, l1: nat, a: seq<Write>, b: seq<Write>)
    requires Sent(s0, l0, s1, l1, a) && l0 < |a|
    ensures Sent(s0, l0, s1, l1, a + b)
  {
    assert Prefix(a + b, l0) == Prefix(a, l0);
  }

  class Cluster {
    var rjobs: map<string, RJob>
    var jobs: map<string, Job>
    ghost var dispatched: seq<Job>
    /** How many more writes succeed before the API stops answering. */
    var writesLeft: nat

    ghost function Contents(): Store
      reads this
    {
      Store(rjobs, jobs, dispatched)
    }

    constructor (s: Store, budget: nat)
      ensures Contents() == s && writesLeft == budget
    {
      rjobs, jobs, dispatched, writesLeft := s.rjobs, s.jobs, s.dispatched, budget;
    }

    method Send(w: Write) returns (ok: bool)
      modifies this
      ensures ok <==> old(writesLeft) >= 1
      ensures Sent(old(Contents()), old(writesLeft), Contents(), writesLeft, [w])
    {
      ghost var before := Contents();
      assert [w][..0] == [] && [w][..1] == [w];
      assert CommitAll(before, []) == before;
      assert CommitAll(before, [w]) == Commit(before, w);
      if writesLeft == 0 {
        return false;
      }
      writesLeft := writesLeft - 1;
      match w {
        case Remove(n) =>
          rjobs := rjobs - {n};
        case CreateJob(job) =>
          if job.name !in jobs {
            jobs := jobs[job.name := job];
            dispatched := dispatched + [job];
          }
        case CreateRJob(r) =>
          if r.name !in rjobs {
            rjobs := rjobs[r.name := r];
          }
        case _ =>
          if w.name in rjobs {
            rjobs := rjobs[w.name := Patch(rjobs[w.name], w)];
          }
      }
      return true;
    }
  }
}
