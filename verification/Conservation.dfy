/** Findings in flight: what waits and what Jobs carry, counted together, and what each kind of
    reconcile does to the sum. */
module Conservation {
  import opened Types
  import opened Seqs
  import opened Rules
  import opened Stores
  import opened Controller
  import opened Lifecycle
  import opened Plans

  function WaitingNames(m: map<string, RJob>, f: Finding): set<string> {
    set n | n in m && Waiting(m[n].phase) && m[n].finding == f
  }

  /** How many rjobs not yet dispatched, suppressed or otherwise settled have the finding. */
  function WaitingCount(m: map<string, RJob>, f: Finding): nat {
    |WaitingNames(m, f)|
  }

  /** How often Jobs carry the finding: as the owner's own or as one correlated with it. */
  function CarriedCount(jobs: seq<Job>, f: Finding): nat {
    if jobs == [] then 0
    else
      var last := jobs[|jobs| - 1];
      CarriedCount(jobs[..|jobs| - 1], f) + (if last.own == f then 1 else 0) + multiset(last.correlated)[f]
  }

  /** The multiplicity of a finding among those that wait and those that are carried. */
  function Held(s: Store, f: Finding): nat {
    WaitingCount(s.rjobs, f) + CarriedCount(s.dispatched, f)
  }

  function Share(r: RJob, f: Finding): nat {
    if Waiting(r.phase) && r.finding == f then 1 else 0
  }

  lemma WaitingWithout(m: map<string, RJob>, n: string, f: Finding)
    requires n in m
    ensures WaitingCount(m, f) == Share(m[n], f) + WaitingCount(m - {n}, f)
  {
    assert WaitingNames(m - {n}, f) == WaitingNames(m, f) - {n};
  }

  lemma WaitingPut(m: map<string, RJob>, n: string, r: RJob, f: Finding)
    requires n in m
    ensures WaitingCount(m[n := r], f) + Share(m[n], f) == WaitingCount(m, f) + Share(r, f)
  {
    WaitingWithout(m, n, f);
    WaitingWithout(m[n := r], n, f);
    assert m[n := r] - {n} == m - {n};
  }

  lemma CarriedAppend(jobs: seq<Job>, job: Job, f: Finding)
    ensures CarriedCount(jobs + [job], f) ==
            CarriedCount(jobs, f) + (if job.own == f then 1 else 0) + multiset(job.correlated)[f]
  {
    assert (jobs + [job])[..|jobs|] == jobs;
  }

  // ---- A group's findings are its members' findings ----

  lemma GroupFindings(rule: Rule, members: seq<UID>, c: RJob, peers: seq<RJob>, id: string)
    ensures var g := GroupOf(rule, c.uid, members, c, peers, id);
            g.findings == Map(FindingOf(), Filter(CorrelatedWith(g.correlated), peers))
  {
    var g := GroupOf(rule, c.uid, members, c, peers, id);
    if members != [] {
      forall p | p in peers ensures CorrelatedWith(g.correlated)(p) == InGroup(members, c.uid)(p) {
        FilterMember(NotPrimary(c.uid), members, p.uid);
      }
      FilterAgrees(CorrelatedWith(g.correlated), InGroup(members, c.uid), peers);
    } else {
      var others := Filter(IsNot(c.uid), peers);
      assert [] + others == others;
      forall p | p in peers ensures CorrelatedWith(g.correlated)(p) == IsNot(c.uid)(p) {
        FilterMember(IsNot(c.uid), peers, p);
        if p in others {
          var i :| 0 <= i < |others| && others[i] == p;
          assert Map(UIDOf(), others)[i] == p.uid;
        }
        if p.uid in g.correlated {
          var i :| 0 <= i < |others| && Map(UIDOf(), others)[i] == p.uid;
          FilterMember(IsNot(c.uid), peers, others[i]);
        }
      }
      FilterAgrees(CorrelatedWith(g.correlated), IsNot(c.uid), peers);
    }
  }

  /** A group whose primary asked: its findings are exactly those of the peers it suppresses. */
  lemma {:induction false} LeaderFindings(rules: seq<Rule>, c: RJob, peers: seq<RJob>, pods: Pods, id: string)
    ensures var v := Evaluate(rules, c, peers, pods, id);
            v.Grouped? && v.group.primary == c.uid ==>
              v.group.findings == Map(FindingOf(), Filter(CorrelatedWith(v.group.correlated), peers))
  {
    if rules != [] {
      match Rules.Apply(rules[0], c, peers, pods)
      case RuleError =>
      case NoMatch =>
        LeaderFindings(rules[1..], c, peers, pods, id);
      case Match(primary, members) =>
        if primary == c.uid {
          GroupFindings(rules[0], members, c, peers, id);
        }
    }
  }

  /** What a leading rjob dispatches with is what it suppresses. */
  lemma LeadFindings(cfg: Config, s: Store, r: RJob, now: Time, view: View)
    requires RouteOf(cfg, s, r, now, view).Lead?
    ensures var g := RouteOf(cfg, s, r, now, view).group;
            g.findings == Map(FindingOf(), Members(s, r, g, view)) && g.primary == r.uid
  {
    LeaderFindings(DefaultRules(cfg.correlation.value), r, Peers(s, r, view), view.pods, view.nextGroup);
  }

  // ---- Conservation ----

  lemma MapFront(ms: seq<RJob>, f: Finding)
    requires ms != []
    ensures multiset(Map(FindingOf(), ms))[f] ==
            multiset(Map(FindingOf(), ms[..|ms| - 1]))[f] + if ms[|ms| - 1].finding == f then 1 else 0
  {
    assert Map(FindingOf(), ms) == Map(FindingOf(), ms[..|ms| - 1]) + [ms[|ms| - 1].finding];
  }

  /** The last suppression of a group, on top of the earlier ones. */
  lemma SuppressLast(cfg: Config, s: Store, ms: seq<RJob>, gid: string)
    requires SuppressibleIn(s, ms) && ms != [] && gid != ""
    ensures SuppressibleIn(s, ms[..|ms| - 1])
    ensures var mid, last := CommitAll(s, SuppressWrites(ms[..|ms| - 1], gid)), ms[|ms| - 1];
            && last.name in mid.rjobs && mid.rjobs[last.name] == last && last.phase == Pending
            && CommitAll(s, SuppressWrites(ms, gid)).rjobs == mid.rjobs[last.name := Quieted(last, gid)]
  {
    var front, last := ms[..|ms| - 1], ms[|ms| - 1];
    var mid := CommitAll(s, SuppressWrites(front, gid));
    assert last in ms;
    LastUntouched(s, ms);
    assert SuppressedStore(s, mid, front, gid) by {
      SuppressEffect(cfg, s, 0, 0, front, gid);
    }
    SuppressOne(cfg, mid, 0, 0, last, gid);
    CommitConcat(s, SuppressWrites(front, gid), [SuppressStatus(last.name, gid), SuppressLabel(last.name, gid)]);
  }

  lemma QuietingTakes(m: map<string, RJob>, r: RJob, gid: string, f: Finding)
    requires r.name in m && m[r.name] == r && r.phase == Pending
    ensures WaitingCount(m[r.name := Quieted(r, gid)], f) + (if r.finding == f then 1 else 0) == WaitingCount(m, f)
  {
    WaitingPut(m, r.name, Quieted(r, gid), f);
  }

  /** Suppressing takes exactly the members' findings out of those that wait. */
  lemma {:induction false} SuppressTakes(cfg: Config, s: Store, ms: seq<RJob>, gid: string, f: Finding)
    requires SuppressibleIn(s, ms) && gid != ""
    ensures WaitingCount(CommitAll(s, SuppressWrites(ms, gid)).rjobs, f) + multiset(Map(FindingOf(), ms))[f]
            == WaitingCount(s.rjobs, f)
  {
    if ms == [] {
      assert Map(FindingOf(), ms) == [];
    } else {
      var front, last := ms[..|ms| - 1], ms[|ms| - 1];
      SuppressLast(cfg, s, ms, gid);
      SuppressTakes(cfg, s, front, gid, f);
      QuietingTakes(CommitAll(s, SuppressWrites(front, gid)).rjobs, last, gid, f);
      MapFront(ms, f);
    }
  }

  lemma FormTakes(cfg: Config, s: Store, r: RJob, g: Group, gid: string, view: View, f: Finding)
    requires WellKeyed(s) && ValidView(s, view) && gid != ""
    requires r.name in s.rjobs && s.rjobs[r.name] == r && r.phase == Pending
    ensures WaitingCount(CommitAll(s, FormWrites(s, r, g, gid, view)).rjobs, f)
            + multiset(Map(FindingOf(), Members(s, r, g, view)))[f] == WaitingCount(s.rjobs, f)
  {
    var ms := Members(s, r, g, view);
    var a, b := SuppressWrites(ms, gid), [SetGroup(r.name, gid), LabelPrimary(r.name, gid)];
    var mid := CommitAll(s, a);
    MembersSuppressible(s, r, g, view);
    assert r.name in mid.rjobs && mid.rjobs[r.name] == r by {
      SuppressEffect(cfg, s, 0, 0, ms, gid);
      PrimaryNotMember(s, r, g, view);
    }
    SuppressTakes(cfg, s, ms, gid, f);
    MarkEnabled(cfg, mid, 0, 0, r, gid);
    CommitConcat(s, a, b);
    WaitingPut(mid.rjobs, r.name, r.(groupID := gid, groupLabel := gid, role := ROLE_PRIMARY), f);
  }

  /** Suppressed as an injection, a finding is not dispatched. */
  predicate Quashed(cfg: Config, injected: bool) {
    injected && cfg.suppressInjection
  }

  function Own(r: RJob, f: Finding): nat {
    if r.finding == f then 1 else 0
  }

  /** Dispatching moves the owner's finding into the Job, along with those it carries; an injection takes
      the owner's finding out instead. */
  lemma DispatchMoves(cfg: Config, s0: Store, s: Store, now: Time, r: RJob, findings: seq<Finding>, injected: bool, f: Finding)
    requires |r.fingerprint| >= 12 && JobName(r.fingerprint) !in s.jobs && s.jobs == s0.jobs
    requires r.name in s.rjobs && s.rjobs[r.name].phase == Pending
    requires s.rjobs[r.name].(groupID := r.groupID, groupLabel := r.groupLabel, role := r.role) == r
    ensures var t := CommitAll(s, DispatchWrites(cfg, s0, r, findings, now, injected));
            if Quashed(cfg, injected) then Held(t, f) + Own(r, f) == Held(s, f)
            else Held(t, f) == Held(s, f) + multiset(findings)[f]
  {
    if Quashed(cfg, injected) {
      QuashTakes(s, r.name, f);
    } else {
      DispatchCarries(cfg, s0, s, now, r, findings, injected, f);
    }
  }

  lemma DispatchCarries(cfg: Config, s0: Store, s: Store, now: Time, r: RJob, findings: seq<Finding>, injected: bool, f: Finding)
    requires |r.fingerprint| >= 12 && JobName(r.fingerprint) !in s.jobs && s.jobs == s0.jobs
    requires r.name in s.rjobs && s.rjobs[r.name].phase == Pending && !Quashed(cfg, injected)
    requires s.rjobs[r.name].(groupID := r.groupID, groupLabel := r.groupLabel, role := r.role) == r
    ensures Held(CommitAll(s, DispatchWrites(cfg, s0, r, findings, now, injected)), f) == Held(s, f) + multiset(findings)[f]
  {
    var job := BuildJob(r, findings, now);
    DispatchEnabled(cfg, s0, s, now, 0, r, findings, injected);
    WaitingPut(s.rjobs, r.name, s.rjobs[r.name].(phase := Dispatched, jobRef := job.name, dispatchedAt := Some(now)), f);
    CarriedAppend(s.dispatched, job, f);
  }

  lemma QuashTakes(s: Store, n: string, f: Finding)
    requires n in s.rjobs && s.rjobs[n].phase == Pending
    ensures Held(CommitAll(s, [FailPermanently(n)]), f) + Own(s.rjobs[n], f) == Held(s, f)
  {
    CommitOne(s, FailPermanently(n));
    WaitingPut(s.rjobs, n, s.rjobs[n].(phase := PermanentlyFailed), f);
  }

  /** A Pending rjob without a Job under its name. */
  ghost predicate Dispatchable(s: Store, r: RJob) {
    && r.name in s.rjobs && s.rjobs[r.name] == r && r.phase == Pending
    && |r.fingerprint| >= 12 && JobName(r.fingerprint) !in s.jobs
  }

  lemma LeadConserves(cfg: Config, s: Store, r: RJob, now: Time, view: View, f: Finding)
    requires WellKeyed(s) && ValidView(s, view) && view.nextGroup != "" && Dispatchable(s, r)
    requires RouteOf(cfg, s, r, now, view).Lead?
    ensures var g := RouteOf(cfg, s, r, now, view).group;
            Held(CommitAll(s, LeadWrites(cfg, s, r, g, now, view)), f)
            + (if Quashed(cfg, view.injected) then Own(r, f) + multiset(g.findings)[f] else 0) == Held(s, f)
  {
    var g := RouteOf(cfg, s, r, now, view).group;
    var gid := GroupIDFor(r, view.nextGroup);
    var form := FormWrites(s, r, g, gid, view);
    var mid := CommitAll(s, form);
    LeadFindings(cfg, s, r, now, view);
    FormTakes(cfg, s, r, g, gid, view, f);
    FormEnabled(cfg, s, now, 0, r, g, gid, view);
    DispatchMoves(cfg, s, mid, now, r, g.findings, view.injected, f);
    CommitConcat(s, form, DispatchWrites(cfg, s, r, g.findings, now, view.injected));
  }

  lemma SoloConserves(cfg: Config, s: Store, r: RJob, now: Time, view: View, f: Finding)
    requires Dispatchable(s, r)
    ensures Held(CommitAll(s, SoloWrites(cfg, s, r, now, view)), f)
            + (if !Limited(cfg, s, now, view) && Quashed(cfg, view.injected) then Own(r, f) else 0) == Held(s, f)
  {
    if !Limited(cfg, s, now, view) {
      DispatchMoves(cfg, s, s, now, r, [], view.injected, f);
    }
  }

  /** Recovery adds what it collects to what is carried. */
  lemma RecoverConserves(cfg: Config, s: Store, r: RJob, now: Time, view: View, f: Finding)
    requires Dispatchable(s, r)
    ensures var t := CommitAll(s, RecoverWrites(cfg, s, r, now, view));
            if Limited(cfg, s, now, view) then Held(t, f) == Held(s, f)
            else if Quashed(cfg, view.injected) then Held(t, f) + Own(r, f) == Held(s, f)
            else Held(t, f) == Held(s, f) + multiset(Recovered(s, r, view))[f]
  {
    var a := if r.groupLabel == "" then [LabelPrimary(r.name, r.groupID)] else [];
    var d := if Limited(cfg, s, now, view) then [] else DispatchWrites(cfg, s, r, Recovered(s, r, view), now, view.injected);
    CommitConcat(s, a, d);
    var mid := CommitAll(s, a);
    if r.groupLabel == "" {
      CommitOne(s, a[0]);
      WaitingPut(s.rjobs, r.name, Patch(r, a[0]), f);
    }
    assert Held(mid, f) == Held(s, f) && mid.jobs == s.jobs;
    if !Limited(cfg, s, now, view) {
      DispatchMoves(cfg, s, mid, now, r, Recovered(s, r, view), view.injected, f);
    }
  }

  lemma OneWriteConserves(s: Store, w: Write, f: Finding)
    requires w.Remove? || IsPatch(w)
    requires w.name in s.rjobs
    requires if w.Remove? then !Waiting(s.rjobs[w.name].phase)
             else Waiting(Patch(s.rjobs[w.name], w).phase) == Waiting(s.rjobs[w.name].phase)
    ensures Held(Commit(s, w), f) == Held(s, f)
  {
    if w.Remove? {
      WaitingWithout(s.rjobs, w.name, f);
    } else {
      assert Patch(s.rjobs[w.name], w).finding == s.rjobs[w.name].finding;
      WaitingPut(s.rjobs, w.name, Patch(s.rjobs[w.name], w), f);
    }
  }

  /** A reconcile of an rjob that is not Pending makes at most one write, and that one neither
      settles nor revives the rjob. */
  lemma SettledPlan(cfg: Config, s: Store, name: string, now: Time, view: View)
    requires name in s.rjobs && s.rjobs[name].phase != Pending
    ensures var plan := Plan(cfg, s, name, now, view);
            plan == [] ||
            (&& plan == [plan[0]]
             && (plan[0].Remove? || IsPatch(plan[0])) && plan[0].name == name
             && if plan[0].Remove? then !Waiting(s.rjobs[name].phase)
                else Waiting(Patch(s.rjobs[name], plan[0]).phase) == Waiting(s.rjobs[name].phase))
  {
  }
}
