/** The source-provider controller: from an observed object to the writes, and to what it
    remembers about when findings were first seen and when self-remediation was last allowed. */
module Provider {
  import opened Types
  import opened Seqs
  import opened Stores
  import opened Controller
  import opened BoundedMaps
  import opened Breakers

  /** What fetching the source object and extracting a finding gave. A report carries the
      fingerprint of its finding and whether the object is annotated critical. */
  datatype Observation =
    | SourceDeleted
    | FindingCleared
    | Unreadable
    | Report(finding: Finding, node: string, fingerprint: string, critical: bool)

  /** Everything one provider reconcile reads besides the store and its own memory: the request,
      the observation, the list order, whether an upstream filter drops the finding, whether the
      dependencies are ready, whether the recorded pull request is found merged, which entry a
      full first-seen map gives up, and the UID the API server would assign next. */
  datatype Look = Look(
    source: Ref,
    observed: Observation,
    order: seq<string>,
    dropped: bool,
    ready: bool,
    merged: bool,
    victim: string,
    uid: UID)

  datatype Effect = Effect(writes: seq<Write>, firstSeen: Seen, lastAllowed: Option<Time>)

  const FIRST_SEEN_CAPACITY: int := 1000

  function NewFirstSeen(cfg: Config, now: Time): Seen {
    Fresh(FIRST_SEEN_CAPACITY, if cfg.stabilisation * 2 == 0 then HOUR else cfg.stabilisation * 2, 0, now)
  }

  // ---- Cancellation when the source is deleted ----

  predicate Cancellable(p: Phase) {
    p == Pending || p == Dispatched || p == Running || p == Suppressed || p == Blank
  }

  function CancelledBy(source: Ref): RJob -> bool {
    (r: RJob) => r.source == source && Cancellable(r.phase)
  }

  function CancelWrites(rs: seq<RJob>): seq<Write> {
    if rs == [] then []
    else
      var last := rs[|rs| - 1];
      CancelWrites(rs[..|rs| - 1]) + [MarkCancelled(last.name), Remove(last.name)]
  }

  // ---- Deduplication by fingerprint ----

  function SameFingerprint(fp: string): RJob -> bool {
    (r: RJob) => r.fingerprint == fp
  }

  /** What an rjob that is not Failed makes the provider write; it always suppresses the finding.
      Only an unmerged tombstone writes: its merge is recorded, or it is removed once expired. */
  function TombstoneWrites(cfg: Config, r: RJob, now: Time, merged: bool): seq<Write> {
    if r.phase != Succeeded || r.prMerged then []
    else if r.sinkURL != "" && merged then [ConfirmMerged(r.name, now)]
    else if r.completedAt.Some? && now - r.completedAt.value < ShortTTL(cfg) then []
    else [Remove(r.name)]
  }

  /** What the rjobs already recorded for the fingerprint make the provider write: Failed ones are
      removed, up to the first that decides. */
  function DedupWrites(cfg: Config, rs: seq<RJob>, now: Time, merged: bool): seq<Write> {
    if rs == [] then []
    else if rs[0].phase == Failed then [Remove(rs[0].name)] + DedupWrites(cfg, rs[1..], now, merged)
    else TombstoneWrites(cfg, rs[0], now, merged)
  }

  /** A new rjob is created only when none is left to suppress the finding. */
  predicate AllFailed(rs: seq<RJob>) {
    forall r :: r in rs ==> r.phase == Failed
  }

  // ---- Creation ----

  function Covers(f: Finding): RJob -> bool {
    (p: RJob) => p.finding.namespace == f.namespace && p.finding.parent == f.parent
                 && KindHierarchyRank(p.finding.kind) > KindHierarchyRank(f.kind)
  }

  function NewRJob(cfg: Config, f: Finding, node: string, fp: string, source: Ref, uid: UID, now: Time): RJob
    requires |fp| >= 12
  {
    RJob(RJobName(fp), uid, now, source, fp, f, node, cfg.maxRetries,
         Blank, 0, "", None, None, "", "", "", "", false, None)
  }

  function CreateWrites(cfg: Config, s: Store, look: Look, now: Time): seq<Write>
    requires look.observed.Report? && |look.observed.fingerprint| >= 12
  {
    var o := look.observed;
    if o.finding.parent != "" && Filter(Covers(o.finding), Listing(look.order, s.rjobs)) != [] then []
    else if !look.ready then []
    else [CreateRJob(NewRJob(cfg, o.finding, o.node, o.fingerprint, look.source, look.uid, now))]
  }

  function ReportWrites(cfg: Config, s: Store, look: Look, now: Time): seq<Write>
    requires look.observed.Report? && |look.observed.fingerprint| >= 12
  {
    var same := Filter(SameFingerprint(look.observed.fingerprint), Listing(look.order, s.rjobs));
    var ws := DedupWrites(cfg, same, now, look.merged);
    if AllFailed(same) then ws + CreateWrites(cfg, CommitAll(s, ws), look, now) else ws
  }

  // ---- The gates before it ----

  predicate TooDeep(cfg: Config, f: Finding) {
    f.chainDepth > 0 && (cfg.maxDepth == 0 || f.chainDepth > cfg.maxDepth)
  }

  /** Self-remediation findings pass the breaker; it is absent when the cooldown is zero. */
  predicate AsksBreaker(cfg: Config, f: Finding) {
    f.chainDepth > 0 && cfg.cooldown > 0
  }

  predicate Stabilises(cfg: Config, o: Observation)
    requires o.Report?
  {
    !o.critical && cfg.stabilisation != 0
  }

  function AfterGates(cfg: Config, s: Store, seen: Seen, last: Option<Time>, look: Look, now: Time): Effect
    requires look.observed.Report?
  {
    var o := look.observed;
    if |o.fingerprint| < 12 then Effect([], seen, last)
    else if !Stabilises(cfg, o) then Effect(ReportWrites(cfg, s, look, now), seen, last)
    else
      match GetAt(seen, o.fingerprint, now)
      case None => Effect([], SetAt(seen, o.fingerprint, now, now, look.victim), last)
      case Some(first) =>
        if now - first < cfg.stabilisation then Effect([], seen, last)
        else Effect(ReportWrites(cfg, s, look, now), seen, last)
  }

  /** One provider reconcile. */
  function React(cfg: Config, s: Store, seen: Seen, last: Option<Time>, look: Look, now: Time): Effect {
    match look.observed
    case Unreadable => Effect([], seen, last)
    case SourceDeleted =>
      Effect(CancelWrites(Filter(CancelledBy(look.source), Listing(look.order, s.rjobs))), Cleared(seen, now), last)
    case FindingCleared => Effect([], Cleared(seen, now), last)
    case Report(f, _, _, _) =>
      if look.dropped || TooDeep(cfg, f) then Effect([], seen, last)
      else if AsksBreaker(cfg, f) && !Allows(cfg.cooldown, last, now) then Effect([], seen, last)
      else AfterGates(cfg, s, seen, if AsksBreaker(cfg, f) then Some(now) else last, look, now)
  }

  // ---- The object ----

  class SourceProviderReconciler {
    const cfg: Config
    const cluster: Cluster
    const firstSeen: BoundedMap
    const breaker: CircuitBreaker

    ghost predicate Valid()
    {
      breaker.cooldown == cfg.cooldown
    }

    constructor (cfg: Config, cluster: Cluster, breaker: CircuitBreaker, now: Time)
      requires breaker.cooldown == cfg.cooldown
      ensures Valid() && this.cfg == cfg && this.cluster == cluster && this.breaker == breaker
      ensures fresh(firstSeen) && firstSeen.Contents() == NewFirstSeen(cfg, now)
    {
      this.cfg, this.cluster, this.breaker := cfg, cluster, breaker;
      var ttl := cfg.stabilisation * 2;
      if ttl == 0 {
        ttl := HOUR;
      }
      firstSeen := new BoundedMap(FIRST_SEEN_CAPACITY, ttl, 0, now);
    }

    method Reconcile(look: Look, now: Time) returns (ghost victim: string)
      requires Valid()
      modifies cluster, firstSeen, breaker
      ensures var e := React(cfg, old(cluster.Contents()), old(firstSeen.Contents()), old(breaker.lastAllowed),
                             look.(victim := victim), now);
              && Sent(old(cluster.Contents()), old(cluster.writesLeft), cluster.Contents(), cluster.writesLeft, e.writes)
              && firstSeen.Contents() == e.firstSeen && breaker.lastAllowed == e.lastAllowed
    {
      victim := look.victim;
      assert CommitAll(cluster.Contents(), []) == cluster.Contents();
      match look.observed
      case Unreadable =>
      case SourceDeleted =>
        firstSeen.Clear(now);
        CancelAll(look.source, look.order);
      case FindingCleared =>
        firstSeen.Clear(now);
      case Report(f, _, fp, critical) =>
        if look.dropped {
          return;
        }
        if f.chainDepth > 0 {
          if cfg.maxDepth == 0 || f.chainDepth > cfg.maxDepth {
            return;
          }
          if cfg.cooldown > 0 {
            var allowed, _ := breaker.ShouldAllow(now);
            if !allowed {
              return;
            }
          }
        }
        victim := PassStabilisation(look, now);
    }

    method PassStabilisation(look: Look, now: Time) returns (ghost victim: string)
      requires look.observed.Report?
      modifies cluster, firstSeen
      ensures var e := AfterGates(cfg, old(cluster.Contents()), old(firstSeen.Contents()), breaker.lastAllowed,
                                  look.(victim := victim), now);
              && Sent(old(cluster.Contents()), old(cluster.writesLeft), cluster.Contents(), cluster.writesLeft, e.writes)
              && firstSeen.Contents() == e.firstSeen && breaker.lastAllowed == e.lastAllowed
    {
      victim := look.victim;
      assert CommitAll(cluster.Contents(), []) == cluster.Contents();
      var fp := look.observed.fingerprint;
      if |fp| < 12 {
        return;
      }
      if !look.observed.critical && cfg.stabilisation != 0 {
        var first := firstSeen.Get(fp, now);
        if first.None? {
          var ok;
          ok, victim := firstSeen.SetWithTime(fp, now, now);
          return;
        }
        var elapsed := now - first.value;
        if elapsed < cfg.stabilisation {
          return;
        }
      }
      assert look.(victim := victim) == look;
      HandleReport(look, now);
    }

    /** Marks each live rjob of the source Cancelled, then deletes it. */
    method CancelAll(source: Ref, order: seq<string>)
      modifies cluster
      ensures Sent(old(cluster.Contents()), old(cluster.writesLeft), cluster.Contents(), cluster.writesLeft,
                   CancelWrites(Filter(CancelledBy(source), Listing(order, old(cluster.rjobs)))))
    {
      ghost var s0, l0 := cluster.Contents(), cluster.writesLeft;
      var items := Listing(order, cluster.rjobs);
      var wanted := CancelledBy(source);
      ghost var done: seq<Write> := [];
      assert Prefix([], l0) == [];
      for i := 0 to |items|
        invariant done == CancelWrites(Filter(wanted, items[..i]))
        invariant Sent(s0, l0, cluster.Contents(), cluster.writesLeft, done) && l0 >= |done|
      {
        FilterStep(wanted, items, i);
        ghost var before := Filter(wanted, items[..i]);
        assert before + [] == before;
        if items[i].source != source {
          continue;
        }
        if !Cancellable(items[i].phase) {
          continue;
        }
        CancelAppend(before, items[i]);
        ghost var s1, l1 := cluster.Contents(), cluster.writesLeft;
        var ok := CancelOne(items[i]);
        ghost var pair := [MarkCancelled(items[i].name), Remove(items[i].name)];
        SentThen(s0, l0, s1, l1, cluster.Contents(), cluster.writesLeft, done, pair);
        done := done + pair;
        if !ok {
          CancelStopped(s0, l0, cluster.Contents(), cluster.writesLeft, wanted, items, i + 1);
          return;
        }
      }
      assert items[..|items|] == items;
    }

    method CancelOne(r: RJob) returns (ok: bool)
      modifies cluster
      ensures Sent(old(cluster.Contents()), old(cluster.writesLeft), cluster.Contents(), cluster.writesLeft,
                   [MarkCancelled(r.name), Remove(r.name)])
      ensures ok <==> old(cluster.writesLeft) >= 2
    {
      ghost var s0, l0 := cluster.Contents(), cluster.writesLeft;
      ghost var a, b := [MarkCancelled(r.name)], [Remove(r.name)];
      assert a + b == [MarkCancelled(r.name), Remove(r.name)];
      ok := cluster.Send(MarkCancelled(r.name));
      if !ok {
        SentShort(s0, l0, cluster.Contents(), cluster.writesLeft, a, b);
        return;
      }
      ghost var s1, l1 := cluster.Contents(), cluster.writesLeft;
      ok := cluster.Send(Remove(r.name));
      SentThen(s0, l0, s1, l1, cluster.Contents(), cluster.writesLeft, a, b);
    }

    method HandleReport(look: Look, now: Time)
      requires look.observed.Report? && |look.observed.fingerprint| >= 12
      modifies cluster
      ensures Sent(old(cluster.Contents()), old(cluster.writesLeft), cluster.Contents(), cluster.writesLeft,
                   ReportWrites(cfg, old(cluster.Contents()), look, now))
    {
      ghost var s0, l0 := cluster.Contents(), cluster.writesLeft;
      var same := ListSameFingerprint(look.observed.fingerprint, look.order);
      ghost var ws := DedupWrites(cfg, same, now, look.merged);
      ghost var rest := if AllFailed(same) then CreateWrites(cfg, CommitAll(s0, ws), look, now) else [];
      assert ReportWrites(cfg, s0, look, now) == ws + rest;
      var ok, go := CheckDuplicates(same, now, look.merged);
      ghost var s1, l1 := cluster.Contents(), cluster.writesLeft;
      if !ok {
        SentShort(s0, l0, s1, l1, ws, rest);
        return;
      }
      assert Prefix(ws, l0) == ws;
      assert CommitAll(s1, []) == s1;
      if go {
        CreateUnlessCovered(look, now);
      }
      SentThen(s0, l0, s1, l1, cluster.Contents(), cluster.writesLeft, ws, rest);
    }

    method CreateUnlessCovered(look: Look, now: Time)
      requires look.observed.Report? && |look.observed.fingerprint| >= 12
      modifies cluster
      ensures Sent(old(cluster.Contents()), old(cluster.writesLeft), cluster.Contents(), cluster.writesLeft,
                   CreateWrites(cfg, old(cluster.Contents()), look, now))
    {
      assert CommitAll(cluster.Contents(), []) == cluster.Contents();
      var o := look.observed;
      if o.finding.parent != "" {
        var covered := IsCovered(o.finding, look.order);
        if covered {
          return;
        }
      }
      if !look.ready {
        return;
      }
      var _ := cluster.Send(CreateRJob(NewRJob(cfg, o.finding, o.node, o.fingerprint, look.source, look.uid, now)));
    }

    method ListSameFingerprint(fp: string, order: seq<string>) returns (same: seq<RJob>)
      ensures same == Filter(SameFingerprint(fp), Listing(order, cluster.rjobs))
    {
      var items := Listing(order, cluster.rjobs);
      same := [];
      for i := 0 to |items|
        invariant same == Filter(SameFingerprint(fp), items[..i])
      {
        FilterStep(SameFingerprint(fp), items, i);
        if items[i].fingerprint != fp {
          continue;
        }
        same := same + [items[i]];
      }
      assert items[..|items|] == items;
    }

    method HandleTombstone(r: RJob, now: Time, merged: bool) returns (ok: bool)
      modifies cluster
      ensures var ws := TombstoneWrites(cfg, r, now, merged);
              && Sent(old(cluster.Contents()), old(cluster.writesLeft), cluster.Contents(), cluster.writesLeft, ws)
              && (ok <==> old(cluster.writesLeft) >= |ws|)
    {
      assert CommitAll(cluster.Contents(), []) == cluster.Contents();
      if r.phase != Succeeded {
        return true;
      }
      if r.prMerged {
        return true;
      }
      if r.sinkURL != "" && merged {
        ok := cluster.Send(ConfirmMerged(r.name, now));
        return;
      }
      if r.completedAt.Some? && now - r.completedAt.value < ShortTTL(cfg) {
        return true;
      }
      ok := cluster.Send(Remove(r.name));
    }

    /** Walks the rjobs of one fingerprint, deleting Failed ones, until one of them decides. */
    method CheckDuplicates(same: seq<RJob>, now: Time, merged: bool) returns (ok: bool, go: bool)
      modifies cluster
      ensures var ws := DedupWrites(cfg, same, now, merged);
              && Sent(old(cluster.Contents()), old(cluster.writesLeft), cluster.Contents(), cluster.writesLeft, ws)
              && (ok <==> old(cluster.writesLeft) >= |ws|) && (ok ==> go == AllFailed(same))
    {
      ghost var s0, l0 := cluster.Contents(), cluster.writesLeft;
      ok := true;
      var i := 0;
      assert Prefix([], l0) == [] && same[..0] == [];
      while i < |same| && same[i].phase == Failed && ok
        invariant i <= |same| && AllFailed(same[..i])
        invariant Sent(s0, l0, cluster.Contents(), cluster.writesLeft, Removals(same[..i]))
        invariant ok <==> l0 >= |Removals(same[..i])|
        decreases |same| - i
      {
        ghost var s1, l1 := cluster.Contents(), cluster.writesLeft;
        ok := cluster.Send(Remove(same[i].name));
        SentThen(s0, l0, s1, l1, cluster.Contents(), cluster.writesLeft, Removals(same[..i]), [Remove(same[i].name)]);
        assert same[..i + 1][..i] == same[..i];
        i := i + 1;
      }
      ghost var a, b := Removals(same[..i]), DedupWrites(cfg, same[i..], now, merged);
      DedupSplit(cfg, same, i, now, merged);
      ghost var s1, l1 := cluster.Contents(), cluster.writesLeft;
      if !ok {
        SentShort(s0, l0, s1, l1, a, b);
        return ok, false;
      }
      go := i == |same|;
      if !go {
        ok := HandleTombstone(same[i], now, merged);
      }
      SentThen(s0, l0, s1, l1, cluster.Contents(), cluster.writesLeft, a, b);
      assert go ==> same[..i] == same;
    }

    /** Whether an rjob of higher rank exists for the same parent. */
    method IsCovered(f: Finding, order: seq<string>) returns (covered: bool)
      ensures covered <==> Filter(Covers(f), Listing(order, cluster.rjobs)) != []
    {
      var items := Listing(order, cluster.rjobs);
      var thisRank := KindHierarchyRank(f.kind);
      for i := 0 to |items|
        invariant Filter(Covers(f), items[..i]) == []
      {
        FilterStep(Covers(f), items, i);
        if items[i].finding.namespace != f.namespace {
          continue;
        }
        if items[i].finding.parent != f.parent {
          continue;
        }
        if KindHierarchyRank(items[i].finding.kind) > thisRank {
          FilterMember(Covers(f), items, items[i]);
          return true;
        }
      }
      assert items[..|items|] == items;
      return false;
    }
  }

  // ---- Facts about the writes ----

  function Removals(rs: seq<RJob>): seq<Write> {
    if rs == [] then [] else Removals(rs[..|rs| - 1]) + [Remove(rs[|rs| - 1].name)]
  }

  /** Leading Failed rjobs are removed one by one before the rest decide. */
  lemma {:induction false} DedupSplit(cfg: Config, rs: seq<RJob>, i: nat, now: Time, merged: bool)
    requires i <= |rs| && AllFailed(rs[..i])
    ensures DedupWrites(cfg, rs, now, merged) == Removals(rs[..i]) + DedupWrites(cfg, rs[i..], now, merged)
  {
    if i == 0 {
      assert rs[0..] == rs;
    } else {
      assert rs[..i][..i - 1] == rs[..i - 1] && rs[i - 1..][1..] == rs[i..];
      assert rs[i - 1] in rs[..i];
      DedupSplit(cfg, rs, i - 1, now, merged);
    }
  }

  lemma CancelAppend(rs: seq<RJob>, r: RJob)
    ensures CancelWrites(rs + [r]) == CancelWrites(rs) + [MarkCancelled(r.name), Remove(r.name)]
  {
    assert (rs + [r])[..|rs|] == rs;
  }

  lemma {:induction false} CancelPrefix(wanted: RJob -> bool, items: seq<RJob>, i: nat)
    requires i <= |items|
    ensures CancelWrites(Filter(wanted, items[..i])) <= CancelWrites(Filter(wanted, items))
    decreases |items| - i
  {
    if i < |items| {
      CancelPrefix(wanted, items, i + 1);
      FilterStep(wanted, items, i);
      CancelAppend(Filter(wanted, items[..i]), items[i]);
      assert Filter(wanted, items[..i]) + [] == Filter(wanted, items[..i]);
    } else {
      assert items[..i] == items;
    }
  }

  /** A cancellation loop that stops early has sent a prefix of everything it meant to send. */
  lemma CancelStopped(s0: Store, l0: nat, s: Store, l: nat, wanted: RJob -> bool, items: seq<RJob>, i: nat)
    requires i <= |items|
    requires var part := CancelWrites(Filter(wanted, items[..i])); Sent(s0, l0, s, l, part) && l0 < |part|
    ensures Sent(s0, l0, s, l, CancelWrites(Filter(wanted, items)))
  {
    var part, all := CancelWrites(Filter(wanted, items[..i])), CancelWrites(Filter(wanted, items));
    CancelPrefix(wanted, items, i);
    SentShort(s0, l0, s, l, part, all[|part|..]);
    assert all == part + all[|part|..];
  }
}
