/** The positive half of stabilisation: a first sight is remembered, and a finding reported again after the
    window becomes an rjob. */
module Stabilisation {
  import opened Types
  import opened Stores
  import opened BoundedMaps
  import opened Provider
  import opened Lifecycle
  import opened Runs
  import opened Histories
  import opened Admissions

  /** The report gets past the filters, the depth limit and the breaker, and its fingerprint is complete. */
  predicate Admitted(cfg: Config, last: Option<Time>, look: Look, now: Time)
    requires look.observed.Report?
  {
    var o := look.observed;
    && !look.dropped && |o.fingerprint| >= 12
    && (o.finding.chainDepth > 0 ==> cfg.maxDepth != 0 && o.finding.chainDepth <= cfg.maxDepth
                                     && (cfg.cooldown > 0 && last.Some? ==> now >= last.value + cfg.cooldown))
  }

  // ---- One reconcile ----

  /** A report moves the breaker exactly when it is about self-remediation, within the depth limit, and the
      breaker is there and open. */
  lemma BreakerAfterReport(cfg: Config, s: Store, seen: Seen, last: Option<Time>, look: Look, now: Time)
    requires look.observed.Report?
    ensures var depth := look.observed.finding.chainDepth;
            React(cfg, s, seen, last, look, now).lastAllowed ==
            if !look.dropped && 0 < depth <= cfg.maxDepth && cfg.maxDepth != 0 && cfg.cooldown > 0
               && (last.Some? ==> now >= last.value + cfg.cooldown) then Some(now) else last
  {
  }

  /** A stored entry reads back for as long as the map keeps entries. */
  lemma ReadsBack(m: Seen, key: string, t: Time, now: Time)
    requires key in m.data && m.data[key] == t && now <= t + m.ttl
    ensures GetAt(m, key, now) == Some(t)
  {
  }

  /** An admitted report of a fingerprint not remembered is recorded at that instant, and writes nothing:
      from then on it reads back for two windows. */
  lemma FirstSightIsRecorded(cfg: Config, s: Store, seen: Seen, last: Option<Time>, look: Look, t: Time)
    requires look.observed.Report? && Admitted(cfg, last, look, t) && !look.observed.critical && cfg.stabilisation > 0
    requires GetAt(seen, look.observed.fingerprint, t).None? && seen.ttl == 2 * cfg.stabilisation
    ensures var e, fp := React(cfg, s, seen, last, look, t), look.observed.fingerprint;
            && e.writes == [] && e.firstSeen.ttl == seen.ttl
            && fp in e.firstSeen.data && e.firstSeen.data[fp] == t
            && forall u :: t <= u <= t + 2 * cfg.stabilisation ==> GetAt(e.firstSeen, fp, u) == Some(t)
  {
    var e, fp := React(cfg, s, seen, last, look, t), look.observed.fingerprint;
    assert e.firstSeen == SetAt(seen, fp, t, t, look.victim);
    forall u | t <= u <= t + 2 * cfg.stabilisation ensures GetAt(e.firstSeen, fp, u) == Some(t) {
      ReadsBack(e.firstSeen, fp, t, u);
    }
  }

  // ---- Over a run ----

  /** The provider remembers having first seen the fingerprint at `t`. */
  predicate Recalls(cfg: Config, s: State, p: nat, fp: string, t: Time) {
    && p in s.memory && s.memory[p].ttl == 2 * cfg.stabilisation
    && fp in s.memory[p].data && s.memory[p].data[fp] == t
  }

  /** The step neither restarts the process, nor clears the provider's memory, nor drops the fingerprint
      from it to make room for another. */
  predicate Spares(cfg: Config, s: State, step: Step, p: nat, fp: string) {
    && !step.Restart?
    && (step.Provide? && step.p == p ==>
          var look := Perceived(s, step.look, step.origin);
          && !look.observed.SourceDeleted? && !look.observed.FindingCleared?
          && (look.observed.Report? && MustEvict(Cleaned(MemoryOf(cfg, s, p), s.now), look.observed.fingerprint)
              ==> look.victim != fp))
  }

  predicate SparesAll(cfg: Config, s: State, steps: seq<Step>, p: nat, fp: string)
    decreases |steps|
  {
    steps != [] ==> Spares(cfg, s, steps[0], p, fp) && SparesAll(cfg, Next(cfg, s, steps[0]), steps[1..], p, fp)
  }

  /** Recording another fingerprint keeps one that is not too old and not evicted. */
  lemma SetKeepsOther(m: Seen, key: string, now: Time, victim: string, fp: string)
    requires fp in m.data && m.ttl > 0 && now <= m.data[fp] + m.ttl && fp != key
    requires MustEvict(Cleaned(m, now), key) ==> victim != fp
    ensures var m' := SetAt(m, key, now, now, victim); fp in m'.data && m'.data[fp] == m.data[fp] && m'.ttl == m.ttl
  {
    assert fp in Cleaned(m, now).data && Cleaned(m, now).data[fp] == m.data[fp];
  }

  /** Only an unremembered fingerprint is recorded, and only by a report. */
  lemma RecordsOnlyNew(cfg: Config, s: Store, seen: Seen, last: Option<Time>, look: Look, now: Time)
    requires look.observed.Report? || look.observed.Unreadable?
    ensures var m := React(cfg, s, seen, last, look, now).firstSeen;
            m == seen || (&& look.observed.Report? && GetAt(seen, look.observed.fingerprint, now).None?
                          && m == SetAt(seen, look.observed.fingerprint, now, now, look.victim))
  {
  }

  lemma StepRecalls(cfg: Config, s: State, step: Step, p: nat, fp: string, t: Time)
    requires cfg.stabilisation > 0 && Recalls(cfg, s, p, fp, t) && Spares(cfg, s, step, p, fp)
    requires s.now <= t + 2 * cfg.stabilisation
    ensures Recalls(cfg, Next(cfg, s, step), p, fp, t)
  {
    if step.Provide? && step.p == p {
      var look, m := Perceived(s, step.look, step.origin), s.memory[p];
      RecordsOnlyNew(cfg, s.store, m, s.lastAllowed, look, s.now);
      ReadsBack(m, fp, t, s.now);
      var m' := React(cfg, s.store, m, s.lastAllowed, look, s.now).firstSeen;
      if m' != m {
        SetKeepsOther(m, look.observed.fingerprint, s.now, look.victim, fp);
      }
    }
  }

  lemma {:induction false} RunRecalls(cfg: Config, env: Env, s: State, steps: seq<Step>, p: nat, fp: string, t: Time)
    requires cfg.stabilisation > 0 && Recalls(cfg, s, p, fp, t) && LegalRun(cfg, env, s, steps) && SparesAll(cfg, s, steps, p, fp)
    requires Run(cfg, s, steps).now <= t + 2 * cfg.stabilisation
    ensures Recalls(cfg, Run(cfg, s, steps), p, fp, t)
    decreases |steps|
  {
    if steps != [] {
      TimeAdvances(cfg, s, steps);
      StepRecalls(cfg, s, steps[0], p, fp, t);
      RunRecalls(cfg, env, Next(cfg, s, steps[0]), steps[1..], p, fp, t);
    }
  }

  lemma {:induction false} TimeAdvances(cfg: Config, s: State, steps: seq<Step>)
    ensures s.now <= Run(cfg, s, steps).now
    decreases |steps|
  {
    if steps != [] {
      TimeAdvances(cfg, Next(cfg, s, steps[0]), steps[1..]);
    }
  }

  /** The provider's report passes the filters, the depth limit and the breaker, and is not critical. */
  predicate Sighted(cfg: Config, s: State, look: Look, fp: string) {
    && look.observed.Report? && look.observed.fingerprint == fp && !look.observed.critical
    && Admitted(cfg, s.lastAllowed, look, s.now)
  }

  /** A first sight is remembered over every run that spares the memory, for two windows. */
  lemma FirstSightIsRemembered(cfg: Config, env: Env, s: State, first: Step, steps: seq<Step>, fp: string)
    requires cfg.stabilisation > 0 && WindowInv(cfg, s) && first.Provide? && Sighted(cfg, s, Perceived(s, first.look, first.origin), fp)
    requires GetAt(MemoryOf(cfg, s, first.p), fp, s.now).None?
    requires LegalRun(cfg, env, Next(cfg, s, first), steps) && SparesAll(cfg, Next(cfg, s, first), steps, first.p, fp)
    requires Run(cfg, Next(cfg, s, first), steps).now <= s.now + 2 * cfg.stabilisation
    ensures var t := Run(cfg, Next(cfg, s, first), steps);
            Recalls(cfg, t, first.p, fp, s.now) && GetAt(MemoryOf(cfg, t, first.p), fp, t.now) == Some(s.now)
  {
    var m := MemoryOf(cfg, s, first.p);
    FreshMemoryOk(cfg, s, first.p);
    FirstSightIsRecorded(cfg, s.store, m, s.lastAllowed, Perceived(s, first.look, first.origin), s.now);
    assert Recalls(cfg, Next(cfg, s, first), first.p, fp, s.now);
    RunRecalls(cfg, env, Next(cfg, s, first), steps, first.p, fp, s.now);
    var t := Run(cfg, Next(cfg, s, first), steps);
    ReadsBack(t.memory[first.p], fp, s.now, t.now);
  }

  /** A remembered finding reported again after the window becomes an rjob if it is ready and unopposed. */
  lemma RecalledIsCreated(cfg: Config, env: Env, s: State, again: Step, fp: string, t: Time)
    requires cfg.stabilisation > 0 && Inv(cfg, env, s) && Legal(cfg, env, s, again) && again.Provide? && again.stop >= 2
    requires Sighted(cfg, s, Perceived(s, again.look, again.origin), fp)
    requires Recalls(cfg, s, again.p, fp, t) && t + cfg.stabilisation <= s.now <= t + 2 * cfg.stabilisation
    requires again.look.ready && Unopposed(s.store, Perceived(s, again.look, again.origin).observed.finding, fp)
    ensures var u, n := Next(cfg, s, again).store, RJobName(fp);
            n in u.rjobs && u.rjobs[n].uid == s.nextUID && u.rjobs[n].fingerprint == fp && u.rjobs[n].created == s.now
  {
    var look, m := Perceived(s, again.look, again.origin), s.memory[again.p];
    PerceivedKeeps(s, again.look, again.origin);
    ReadsBack(m, fp, t, s.now);
    assert GatesOpen(cfg, m, s.lastAllowed, look, s.now);
    CreatedExactlyWhen(cfg, s.store, m, s.lastAllowed, look, s.now);
    AtMostTwo(cfg, s.store, m, s.lastAllowed, look, s.now);
  }

  lemma AtMostTwo(cfg: Config, s: Store, seen: Seen, last: Option<Time>, look: Look, now: Time)
    requires WellKeyed(s) && Enumerates(look.order, s.rjobs) && look.observed.Report? && GatesOpen(cfg, seen, last, look, now)
    ensures var ws := React(cfg, s, seen, last, look, now).writes; |ws| <= 2 && forall stop: nat :: stop >= 2 ==> Prefix(ws, stop) == ws
  {
    GatesDecide(cfg, s, seen, last, look, now);
    ReportCases(cfg, s, look, now);
  }

  /** Stabilisation lets stable findings through: after an admitted first sight at `s.now`, any run that
      spares the provider's memory, and one to two windows later an admitted report that is ready and
      unopposed, there is a new rjob for the finding. */
  lemma StableFindingIsCreated(cfg: Config, env: Env, s: State, first: Step, steps: seq<Step>, again: Step, fp: string)
    requires cfg.stabilisation > 0 && Inv(cfg, env, s) && WindowInv(cfg, s)
    requires first.Provide? && again.Provide? && first.p == again.p && again.stop >= 2
    requires LegalRun(cfg, env, s, [first] + steps) && SparesAll(cfg, Next(cfg, s, first), steps, first.p, fp)
    requires Sighted(cfg, s, Perceived(s, first.look, first.origin), fp) && GetAt(MemoryOf(cfg, s, first.p), fp, s.now).None?
    requires var t := Run(cfg, s, [first] + steps);
             var look := Perceived(t, again.look, again.origin);
             && Legal(cfg, env, t, again) && Sighted(cfg, t, look, fp)
             && s.now + cfg.stabilisation <= t.now <= s.now + 2 * cfg.stabilisation
             && look.ready && Unopposed(t.store, look.observed.finding, fp)
    ensures var t := Run(cfg, s, [first] + steps);
            var u, n := Next(cfg, t, again).store, RJobName(fp);
            n in u.rjobs && u.rjobs[n].uid == t.nextUID && u.rjobs[n].fingerprint == fp && u.rjobs[n].created == t.now
  {
    var t := Run(cfg, s, [first] + steps);
    assert ([first] + steps)[1..] == steps;
    assert t == Run(cfg, Next(cfg, s, first), steps);
    FirstSightIsRemembered(cfg, env, s, first, steps, fp);
    RunKeepsInv(cfg, env, s, [first] + steps);
    PerceivedKeeps(t, again.look, again.origin);
    RecalledIsCreated(cfg, env, t, again, fp, s.now);
  }

  // ---- The memory is bounded ----

  /** Every provider remembers at most a thousand fingerprints. */
  predicate Roomy(s: State) {
    forall p :: p in s.memory ==> s.memory[p].maxSize == 1000 && |s.memory[p].data| <= 1000
  }

  lemma StepKeepsRoomy(cfg: Config, env: Env, s: State, step: Step)
    requires Roomy(s) && Legal(cfg, env, s, step)
    ensures Roomy(Next(cfg, s, step))
  {
    if step.Provide? {
      var look, m := Perceived(s, step.look, step.origin), MemoryOf(cfg, s, step.p);
      PerceivedKeeps(s, step.look, step.origin);
      if look.observed.Report? || look.observed.Unreadable? {
        RecordsOnlyNew(cfg, s.store, m, s.lastAllowed, look, s.now);
        if look.observed.Report? {
          SameFingerprintPerceived(s, step.look, step.origin);
          SetKeepsBound(m, look.observed.fingerprint, s.now, s.now, look.victim);
        }
      }
    }
  }

  lemma SameFingerprintPerceived(s: State, look: Look, origin: Option<Watch>)
    requires Perceived(s, look, origin).observed.Report?
    ensures look.observed.Report? && Perceived(s, look, origin).observed.fingerprint == look.observed.fingerprint
  {
  }

  lemma {:induction false} MemoryStaysBounded(cfg: Config, env: Env, s: State, steps: seq<Step>)
    requires Roomy(s) && LegalRun(cfg, env, s, steps)
    ensures Roomy(Run(cfg, s, steps))
    decreases |steps|
  {
    if steps != [] {
      StepKeepsRoomy(cfg, env, s, steps[0]);
      MemoryStaysBounded(cfg, env, Next(cfg, s, steps[0]), steps[1..]);
    }
  }
}
