/** What the providers' history shows in every run: findings were stable before they became rjobs,
    and self-remediation is limited in depth and in rate. */
module Histories {
  import opened Types
  import opened Seqs
  import opened Stores
  import opened BoundedMaps
  import opened Breakers
  import opened Provider
  import opened Lifecycle
  import opened Runs

  // ---- What the history says ----

  /** The event empties the provider's first-seen map. */
  predicate Wipes(e: Event, p: nat) {
    e.Restarted? || (e.Wiped? && e.p == p)
  }

  ghost predicate NotWiped(events: seq<Event>, p: nat, from: nat, to: nat)
    requires to <= |events|
  {
    forall j :: from < j < to ==> !Wipes(events[j], p)
  }

  /** `fp` was recorded at `f` and the provider's memory has not been wiped since. */
  ghost predicate Remembered(events: seq<Event>, p: nat, fp: string, f: Time) {
    exists i :: 0 <= i < |events| && events[i] == Recorded(p, fp, f) && NotWiped(events, p, i, |events|)
  }

  /** The creation at `k` was preceded by a record at least one and at most three windows old, with
      no cleared finding, deleted source or restart in between. */
  ghost predicate Stable(window: int, events: seq<Event>, k: nat)
    requires k < |events| && events[k].Created?
  {
    exists i, f :: 0 <= i < k && events[i] == Recorded(events[k].p, events[k].fp, f)
                   && window <= events[k].at - f <= 3 * window && NotWiped(events, events[k].p, i, k)
  }

  ghost predicate AllStable(window: int, events: seq<Event>) {
    forall k :: 0 <= k < |events| && events[k].Created? && !events[k].critical ==> Stable(window, events, k)
  }

  function SelfCreated(): Event -> bool {
    (e: Event) => e.Created? && e.depth > 0
  }

  function TimeOf(): Event -> Time {
    (e: Event) => e.at
  }

  function IsRestart(): Event -> bool {
    (e: Event) => e.Restarted?
  }

  /** When the process restarted. */
  function Restarts(events: seq<Event>): seq<Time> {
    Map(TimeOf(), Filter(IsRestart(), events))
  }

  /** The self-remediation creations, each with the number of restarts before it. */
  function SelfStamps(events: seq<Event>): seq<Stamp> {
    if events == [] then []
    else
      var front, last := events[..|events| - 1], events[|events| - 1];
      SelfStamps(front) + if SelfCreated()(last) then [Stamp(last.at, |Restarts(front)|)] else []
  }

  /** One deeper than the owner that was there, or the first level. */
  predicate DepthJustified(cfg: Config, e: Event) {
    e.Created? && e.depth > 0 ==>
      && cfg.maxDepth != 0 && e.depth <= cfg.maxDepth
      && e.depth == if e.ownerDepth.Some? then e.ownerDepth.value + 1 else 1
  }

  // ---- The invariant ----

  /** A provider's memory is configured for the window, agrees with the history, and has no entry too
      old for its last cleanup. */
  ghost predicate MemoryOk(cfg: Config, m: Seen, p: nat, events: seq<Event>, now: Time) {
    && m.ttl == 2 * cfg.stabilisation && m.interval == cfg.stabilisation && m.lastCleanup <= now && Timely(m)
    && forall fp :: fp in m.data ==> m.data[fp] <= now && Remembered(events, p, fp, m.data[fp])
  }

  ghost predicate WindowInv(cfg: Config, s: State) {
    && AllStable(cfg.stabilisation, s.events)
    && forall p :: p in s.memory ==> MemoryOk(cfg, s.memory[p], p, s.events, s.now)
  }

  /** Creations spaced and dated, none after the breaker last allowed one in this epoch, and nothing in
      the future. */
  ghost predicate Paced(cooldown: int, ss: seq<Stamp>, resets: seq<Time>, last: Option<Time>, now: Time) {
    && Spaced(cooldown, ss) && Dated(ss, resets)
    && (last.Some? ==> last.value <= now)
    && (forall k :: 0 <= k < |resets| ==> resets[k] <= now)
    && (forall k :: 0 <= k < |ss| ==> ss[k].at <= now)
    && (forall k :: 0 <= k < |ss| && ss[k].epoch == |resets| ==> last.Some? && ss[k].at <= last.value)
  }

  ghost predicate RateInv(cfg: Config, s: State) {
    Paced(cfg.cooldown, SelfStamps(s.events), Restarts(s.events), s.lastAllowed, s.now)
  }

  lemma RememberedLonger(events: seq<Event>, extra: seq<Event>, p: nat, fp: string, f: Time)
    requires Remembered(events, p, fp, f)
    requires forall e :: e in extra ==> !Wipes(e, p)
    ensures Remembered(events + extra, p, fp, f)
  {
    var i :| 0 <= i < |events| && events[i] == Recorded(p, fp, f) && NotWiped(events, p, i, |events|);
    var all := events + extra;
    assert all[i] == Recorded(p, fp, f);
    forall j | i < j < |all| ensures !Wipes(all[j], p) {
      assert j < |events| ==> all[j] == events[j];
      assert j >= |events| ==> all[j] in extra;
    }
  }

  lemma StableLonger(window: int, events: seq<Event>, extra: seq<Event>, k: nat)
    requires k < |events| && events[k].Created? && Stable(window, events, k)
    ensures Stable(window, events + extra, k)
  {
    var i, f :| 0 <= i < k && events[i] == Recorded(events[k].p, events[k].fp, f)
                && window <= events[k].at - f <= 3 * window && NotWiped(events, events[k].p, i, k);
    var all := events + extra;
    assert all[i] == events[i] && all[k] == events[k];
    assert NotWiped(all, all[k].p, i, k);
  }

  /** A recorded and still remembered fingerprint makes a creation right now stable. */
  lemma StableNow(window: int, events: seq<Event>, e: Event, f: Time)
    requires e.Created? && Remembered(events, e.p, e.fp, f) && window <= e.at - f <= 3 * window
    ensures Stable(window, events + [e], |events|)
  {
    var i :| 0 <= i < |events| && events[i] == Recorded(e.p, e.fp, f) && NotWiped(events, e.p, i, |events|);
    var all := events + [e];
    assert all[i] == events[i] && all[|events|] == e;
    assert NotWiped(all, e.p, i, |events|);
  }

  lemma AppendStable(window: int, events: seq<Event>, e: Event)
    requires AllStable(window, events)
    requires e.Created? && !e.critical ==> Stable(window, events + [e], |events|)
    ensures AllStable(window, events + [e])
  {
    var all := events + [e];
    forall k | 0 <= k < |all| && all[k].Created? && !all[k].critical ensures Stable(window, all, k) {
      if k < |events| {
        StableLonger(window, events, [e], k);
      }
    }
  }

  // ---- What a provider reconcile adds ----

  lemma NoWritesNoEvent(cfg: Config, s: State, p: nat, raw: Look, origin: Option<Watch>, stop: nat)
    requires Unused(s.store, s.nextUID) && Perceived(s, raw, origin).observed.Report?
    requires React(cfg, s.store, MemoryOf(cfg, s, p), s.lastAllowed, Perceived(s, raw, origin), s.now).writes == []
    ensures var t, look := Next(cfg, s, Provide(p, raw, origin, stop)), Perceived(s, raw, origin);
            t.events == s.events + if t.memory[p] != MemoryOf(cfg, s, p) then [Recorded(p, look.observed.fingerprint, s.now)] else []
  {
  }

  /** A new rjob means the report passed every gate. */
  predicate Passed(cfg: Config, s: State, p: nat, look: Look)
    requires look.observed.Report?
  {
    var o, m := look.observed, MemoryOf(cfg, s, p);
    && !TooDeep(cfg, o.finding)
    && (AsksBreaker(cfg, o.finding) ==> Allows(cfg.cooldown, s.lastAllowed, s.now))
    && (Stabilises(cfg, o) ==>
          GetAt(m, o.fingerprint, s.now).Some? && s.now - GetAt(m, o.fingerprint, s.now).value >= cfg.stabilisation)
  }

  lemma WritesMeanPassed(cfg: Config, s: State, p: nat, look: Look)
    requires look.observed.Report?
    requires React(cfg, s.store, MemoryOf(cfg, s, p), s.lastAllowed, look, s.now).writes != []
    ensures Passed(cfg, s, p, look)
    ensures var e := React(cfg, s.store, MemoryOf(cfg, s, p), s.lastAllowed, look, s.now);
            e.firstSeen == MemoryOf(cfg, s, p)
            && e.lastAllowed == if AsksBreaker(cfg, look.observed.finding) then Some(s.now) else s.lastAllowed
  {
  }

  /** The event of a creation by this step, if it happens. */
  function CreationBy(s: State, p: nat, look: Look, origin: Option<Watch>): Event
    requires look.observed.Report?
  {
    var o := look.observed;
    Created(p, o.fingerprint, s.now, o.critical, o.finding.chainDepth, OwnerDepth(s, origin))
  }

  /** What one provider reconcile adds to the history. */
  lemma ProvideNotes(cfg: Config, s: State, p: nat, raw: Look, origin: Option<Watch>, stop: nat)
    requires Unused(s.store, s.nextUID)
    ensures var t, m := Next(cfg, s, Provide(p, raw, origin, stop)), MemoryOf(cfg, s, p);
            var look := Perceived(s, raw, origin);
            if look.observed.Unreadable? then t.events == s.events && t.memory[p] == m
            else if !look.observed.Report? then t.events == s.events + [Wiped(p, s.now)] && t.memory[p] == Cleared(m, s.now)
            else if t.memory[p] != m then
              && t.events == s.events + [Recorded(p, look.observed.fingerprint, s.now)]
              && t.memory[p] == SetAt(m, look.observed.fingerprint, s.now, s.now, look.victim)
            else t.events == s.events ||
                 (&& t.events == s.events + [CreationBy(s, p, look, origin)] && Passed(cfg, s, p, look)
                  && (AsksBreaker(cfg, look.observed.finding) ==> t.lastAllowed == Some(s.now)))
  {
    var look := Perceived(s, raw, origin);
    if look.observed.Report? {
      if React(cfg, s.store, MemoryOf(cfg, s, p), s.lastAllowed, look, s.now).writes == [] {
        NoWritesNoEvent(cfg, s, p, raw, origin, stop);
      } else {
        WritesMeanPassed(cfg, s, p, look);
      }
    }
  }

  // ---- The stabilisation window ----

  lemma FreshMemoryOk(cfg: Config, s: State, p: nat)
    requires cfg.stabilisation > 0 && WindowInv(cfg, s)
    ensures MemoryOk(cfg, MemoryOf(cfg, s, p), p, s.events, s.now)
  {
  }

  /** Recording a fingerprint keeps the memory in step with the history. */
  lemma SetKeepsMemory(cfg: Config, m: Seen, p: nat, events: seq<Event>, now: Time, fp: string, victim: string)
    requires cfg.stabilisation > 0 && MemoryOk(cfg, m, p, events, now)
    ensures MemoryOk(cfg, SetAt(m, fp, now, now, victim), p, events + [Recorded(p, fp, now)], now)
  {
    var m', all := SetAt(m, fp, now, now, victim), events + [Recorded(p, fp, now)];
    forall k | k in m'.data ensures m'.data[k] <= now && Remembered(all, p, k, m'.data[k]) {
      if k == fp {
        assert all[|events|] == Recorded(p, fp, now);
      } else {
        assert k in m.data && m'.data[k] == m.data[k];
        RememberedLonger(events, [Recorded(p, fp, now)], p, k, m.data[k]);
      }
    }
  }

  /** An event of another provider, or one that does not wipe, keeps a memory in step. */
  lemma EventKeepsMemory(cfg: Config, m: Seen, p: nat, events: seq<Event>, e: Event, now: Time)
    requires MemoryOk(cfg, m, p, events, now) && !Wipes(e, p)
    ensures MemoryOk(cfg, m, p, events + [e], now)
  {
    forall fp | fp in m.data ensures Remembered(events + [e], p, fp, m.data[fp]) {
      RememberedLonger(events, [e], p, fp, m.data[fp]);
    }
  }

  /** A creation without the critical annotation is stable. */
  lemma CreationStable(cfg: Config, s: State, p: nat, look: Look, origin: Option<Watch>)
    requires cfg.stabilisation > 0 && WindowInv(cfg, s) && look.observed.Report? && Passed(cfg, s, p, look)
    requires !look.observed.critical
    ensures Stable(cfg.stabilisation, s.events + [CreationBy(s, p, look, origin)], |s.events|)
  {
    var m, fp := MemoryOf(cfg, s, p), look.observed.fingerprint;
    FreshMemoryOk(cfg, s, p);
    ReadsAreRecent(m, fp, s.now);
    StableNow(cfg.stabilisation, s.events, CreationBy(s, p, look, origin), GetAt(m, fp, s.now).value);
  }

  lemma ProvideKeepsWindow(cfg: Config, s: State, p: nat, raw: Look, origin: Option<Watch>, stop: nat)
    requires cfg.stabilisation > 0 && WindowInv(cfg, s) && Unused(s.store, s.nextUID)
    ensures WindowInv(cfg, Next(cfg, s, Provide(p, raw, origin, stop)))
  {
    var t, m := Next(cfg, s, Provide(p, raw, origin, stop)), MemoryOf(cfg, s, p);
    var look := Perceived(s, raw, origin);
    ProvideNotes(cfg, s, p, raw, origin, stop);
    FreshMemoryOk(cfg, s, p);
    if t.events != s.events {
      var e := t.events[|s.events|];
      assert t.events == s.events + [e];
      if e.Created? && !e.critical {
        CreationStable(cfg, s, p, look, origin);
      }
      AppendStable(cfg.stabilisation, s.events, e);
      forall q | q in t.memory ensures MemoryOk(cfg, t.memory[q], q, t.events, t.now) {
        if q != p {
          EventKeepsMemory(cfg, s.memory[q], q, s.events, e, s.now);
        } else if e.Recorded? {
          SetKeepsMemory(cfg, m, p, s.events, s.now, look.observed.fingerprint, look.victim);
        } else if e.Created? {
          EventKeepsMemory(cfg, m, p, s.events, e, s.now);
        }
      }
    }
  }

  lemma StepKeepsWindow(cfg: Config, env: Env, s: State, step: Step)
    requires cfg.stabilisation > 0 && WindowInv(cfg, s) && Unused(s.store, s.nextUID) && Legal(cfg, env, s, step)
    ensures WindowInv(cfg, Next(cfg, s, step))
  {
    match step
    case Provide(p, look, origin, stop) =>
      ProvideKeepsWindow(cfg, s, p, look, origin, stop);
    case Tick(d) =>
      var t := Next(cfg, s, step);
      forall p | p in t.memory ensures MemoryOk(cfg, t.memory[p], p, t.events, t.now) {
        assert MemoryOk(cfg, s.memory[p], p, s.events, s.now);
      }
    case Restart =>
      AppendStable(cfg.stabilisation, s.events, Restarted(s.now));
    case _ =>
  }

  lemma {:induction false} RunKeepsWindow(cfg: Config, env: Env, s: State, steps: seq<Step>)
    requires cfg.stabilisation > 0 && Inv(cfg, env, s) && WindowInv(cfg, s) && LegalRun(cfg, env, s, steps)
    ensures WindowInv(cfg, Run(cfg, s, steps))
    decreases |steps|
  {
    if steps != [] {
      StepKeepsWindow(cfg, env, s, steps[0]);
      StepKeepsInv(cfg, env, s, steps[0]);
      RunKeepsWindow(cfg, env, Next(cfg, s, steps[0]), steps[1..]);
    }
  }

  /** Stabilisation: in every run, whenever a provider created an rjob for a finding not annotated
      critical, that same provider had recorded the fingerprint at least one and at most three windows
      earlier, and saw no cleared finding, deleted source or restart in between. */
  lemma CreationsAreStable(cfg: Config, env: Env, s: State, steps: seq<Step>, k: nat)
    requires cfg.stabilisation > 0 && Initial(s) && LegalRun(cfg, env, s, steps)
    requires var events := Run(cfg, s, steps).events; k < |events| && events[k].Created? && !events[k].critical
    ensures Stable(cfg.stabilisation, Run(cfg, s, steps).events, k)
  {
    RunKeepsWindow(cfg, env, s, steps);
  }

  // ---- Depth and rate ----

  /** The depth the Job provider computes is one more than a live owner's. */
  lemma PerceivedDepth(cfg: Config, s: State, p: nat, raw: Look, origin: Option<Watch>)
    requires Perceived(s, raw, origin).observed.Report? && !TooDeep(cfg, Perceived(s, raw, origin).observed.finding)
    ensures DepthJustified(cfg, CreationBy(s, p, Perceived(s, raw, origin), origin))
  {
    if origin.Some? {
      var refs := RefsOf(s.store.jobs[origin.value.job]);
      assert refs[1..] == [];
    }
  }

  lemma StepKeepsDepth(cfg: Config, env: Env, s: State, step: Step)
    requires Unused(s.store, s.nextUID) && Legal(cfg, env, s, step)
    requires forall e :: e in s.events ==> DepthJustified(cfg, e)
    ensures forall e :: e in Next(cfg, s, step).events ==> DepthJustified(cfg, e)
  {
    match step
    case Provide(p, raw, origin, stop) =>
      ProvideNotes(cfg, s, p, raw, origin, stop);
      var look := Perceived(s, raw, origin);
      if look.observed.Report? && !TooDeep(cfg, look.observed.finding) {
        PerceivedDepth(cfg, s, p, raw, origin);
      }
    case _ =>
  }

  lemma AppendRestarts(events: seq<Event>, e: Event)
    ensures Restarts(events + [e]) == Restarts(events) + if e.Restarted? then [e.at] else []
    ensures SelfStamps(events + [e]) == SelfStamps(events) + if SelfCreated()(e) then [Stamp(e.at, |Restarts(events)|)] else []
  {
    assert (events + [e])[..|events|] == events;
    var kept := Filter(IsRestart(), events);
    if e.Restarted? {
      assert Filter(IsRestart(), events + [e]) == kept + [e];
      assert Map(TimeOf(), kept + [e]) == Map(TimeOf(), kept) + [e.at];
    } else {
      assert Filter(IsRestart(), events + [e]) == kept;
    }
  }

  lemma BreakerAdvances(cfg: Config, s: State, p: nat, look: Look)
    ensures var e := React(cfg, s.store, MemoryOf(cfg, s, p), s.lastAllowed, look, s.now);
            e.lastAllowed == s.lastAllowed || e.lastAllowed == Some(s.now)
  {
  }

  lemma PacedLater(cooldown: int, ss: seq<Stamp>, resets: seq<Time>, last: Option<Time>, now: Time, later: Time)
    requires Paced(cooldown, ss, resets, last, now) && now <= later
    ensures Paced(cooldown, ss, resets, last, later)
  {
  }

  /** A creation the breaker allows keeps the pace. */
  lemma PacedNext(cooldown: int, ss: seq<Stamp>, resets: seq<Time>, last: Option<Time>, now: Time)
    requires cooldown > 0 && Paced(cooldown, ss, resets, last, now)
    ensures Paced(cooldown, ss, resets, Some(now), now)
    ensures Allows(cooldown, last, now) ==> Paced(cooldown, ss + [Stamp(now, |resets|)], resets, Some(now), now)
  {
  }

  /** A restart forgets when the breaker last allowed anything, and begins an epoch. */
  lemma PacedRestart(cooldown: int, ss: seq<Stamp>, resets: seq<Time>, last: Option<Time>, now: Time)
    requires Paced(cooldown, ss, resets, last, now)
    ensures Paced(cooldown, ss, resets + [now], None, now)
  {
  }

  lemma ProvideKeepsRate(cfg: Config, s: State, p: nat, raw: Look, origin: Option<Watch>, stop: nat)
    requires cfg.cooldown > 0 && RateInv(cfg, s) && Unused(s.store, s.nextUID)
    ensures RateInv(cfg, Next(cfg, s, Provide(p, raw, origin, stop)))
  {
    var t := Next(cfg, s, Provide(p, raw, origin, stop));
    BreakerAdvances(cfg, s, p, Perceived(s, raw, origin));
    assert KeepsPace(cfg, s, t) by {
      ProvideNotes(cfg, s, p, raw, origin, stop);
      if t.events != s.events {
        AppendRestarts(s.events, t.events[|s.events|]);
      }
    }
    PacedNext(cfg.cooldown, SelfStamps(s.events), Restarts(s.events), s.lastAllowed, s.now);
  }

  /** No creation above depth zero, or one the breaker allows. */
  ghost predicate KeepsPace(cfg: Config, s: State, t: State) {
    && Restarts(t.events) == Restarts(s.events)
    && (SelfStamps(t.events) == SelfStamps(s.events) ||
        (&& SelfStamps(t.events) == SelfStamps(s.events) + [Stamp(s.now, |Restarts(s.events)|)]
         && Allows(cfg.cooldown, s.lastAllowed, s.now) && t.lastAllowed == Some(s.now)))
  }

  lemma RestartKeepsRate(cfg: Config, s: State)
    requires RateInv(cfg, s)
    ensures RateInv(cfg, Next(cfg, s, Restart))
  {
    AppendRestarts(s.events, Restarted(s.now));
    PacedRestart(cfg.cooldown, SelfStamps(s.events), Restarts(s.events), s.lastAllowed, s.now);
  }

  lemma StepKeepsRate(cfg: Config, s: State, step: Step)
    requires cfg.cooldown > 0 && RateInv(cfg, s) && Unused(s.store, s.nextUID)
    ensures RateInv(cfg, Next(cfg, s, step))
  {
    match step
    case Provide(p, look, origin, stop) =>
      ProvideKeepsRate(cfg, s, p, look, origin, stop);
    case Restart =>
      RestartKeepsRate(cfg, s);
    case _ =>
      PacedLater(cfg.cooldown, SelfStamps(s.events), Restarts(s.events), s.lastAllowed, s.now, Next(cfg, s, step).now);
  }

  lemma {:induction false} RunKeepsRate(cfg: Config, env: Env, s: State, steps: seq<Step>)
    requires cfg.cooldown > 0 && Inv(cfg, env, s) && RateInv(cfg, s) && LegalRun(cfg, env, s, steps)
    ensures RateInv(cfg, Run(cfg, s, steps))
    decreases |steps|
  {
    if steps != [] {
      StepKeepsRate(cfg, s, steps[0]);
      StepKeepsInv(cfg, env, s, steps[0]);
      RunKeepsRate(cfg, env, Next(cfg, s, steps[0]), steps[1..]);
    }
  }

  lemma {:induction false} RunKeepsDepth(cfg: Config, env: Env, s: State, steps: seq<Step>)
    requires Inv(cfg, env, s) && LegalRun(cfg, env, s, steps)
    requires forall e :: e in s.events ==> DepthJustified(cfg, e)
    ensures forall e :: e in Run(cfg, s, steps).events ==> DepthJustified(cfg, e)
    decreases |steps|
  {
    if steps != [] {
      StepKeepsDepth(cfg, env, s, steps[0]);
      StepKeepsInv(cfg, env, s, steps[0]);
      RunKeepsDepth(cfg, env, Next(cfg, s, steps[0]), steps[1..]);
    }
  }

  /** Self-remediation is bounded in depth: every creation above depth zero is within the limit and one
      deeper than the owner that was there, and every rjob in the store is within the limit. */
  lemma DepthIsLimited(cfg: Config, env: Env, s: State, steps: seq<Step>)
    requires Initial(s) && LegalRun(cfg, env, s, steps)
    ensures forall e :: e in Run(cfg, s, steps).events ==> DepthJustified(cfg, e)
    ensures forall n :: n in Run(cfg, s, steps).store.rjobs ==> !TooDeep(cfg, Run(cfg, s, steps).store.rjobs[n].finding)
  {
    RunKeepsDepth(cfg, env, s, steps);
    RunKeepsInv(cfg, env, s, steps);
  }

  function Hits(from: Time, span: int): Event -> bool {
    (e: Event) => e.Created? && e.depth > 0 && from <= e.at <= from + span
  }

  lemma {:induction false} StampsCount(events: seq<Event>, from: Time, span: int)
    ensures |Filter(StampedWithin(from, span), SelfStamps(events))| == |Filter(Hits(from, span), events)|
  {
    if events != [] {
      var front, last := events[..|events| - 1], events[|events| - 1];
      StampsCount(front, from, span);
      var ss := SelfStamps(front);
      if SelfCreated()(last) {
        var st := Stamp(last.at, |Restarts(front)|);
        assert (ss + [st])[..|ss|] == ss;
      } else {
        assert ss + [] == ss;
      }
    }
  }

  /** And in rate: across all providers, an interval of length `span` holds at most
      `1 + span / cooldown` self-remediation creations, and one more for each restart within it. */
  lemma RateIsLimited(cfg: Config, env: Env, s: State, steps: seq<Step>, from: Time, span: int)
    requires cfg.cooldown > 0 && span >= 0 && Initial(s) && LegalRun(cfg, env, s, steps)
    ensures var events := Run(cfg, s, steps).events;
            |Filter(Hits(from, span), events)| <= 1 + |Filter(Within(from, span), Restarts(events))| + span / cfg.cooldown
  {
    assert RateInv(cfg, s);
    RunKeepsRate(cfg, env, s, steps);
    var events := Run(cfg, s, steps).events;
    StampsCount(events, from, span);
    SpacedRate(cfg.cooldown, SelfStamps(events), Restarts(events), from, span);
  }
}
