/** Building runs step by step: complete reconciles, and which states are reached. */
module Staging {
  import opened Types
  import opened Seqs
  import opened Stores
  import opened Controller
  import opened Runs
  import opened Groups

  // ---- Names not used yet ----

  ghost function LongestIn(groups: set<string>): (n: nat)
    ensures forall g :: g in groups ==> |g| <= n
  {
    if groups == {} then 0
    else
      var g :| g in groups;
      var rest := LongestIn(groups - {g});
      assert forall h :: h in groups ==> h == g || h in groups - {g};
      if |g| > rest then |g| else rest
  }

  ghost function NewGroup(groups: set<string>): (g: string)
    ensures g != "" && g !in groups
  {
    seq(LongestIn(groups) + 1, _ => 'g')
  }

  ghost function HighestIn(ps: set<nat>): (n: nat)
    ensures forall p :: p in ps ==> p <= n
  {
    if ps == {} then 0
    else
      var p :| p in ps;
      var rest := HighestIn(ps - {p});
      assert forall q :: q in ps ==> q == p || q in ps - {p};
      if p > rest then p else rest
  }

  // ---- Reconciles ----

  ghost function ViewNow(s: State): View {
    View(Enumerated(s.store.rjobs.Keys), Enumerated(s.store.jobs.Keys), map[], NewGroup(s.groups), false)
  }

  lemma ControlNext(cfg: Config, s: State, name: string, view: View, stop: nat)
    ensures var t := Next(cfg, s, Control(name, view, stop));
            && t.store == CommitAll(s.store, Prefix(Plan(cfg, s.store, name, s.now, view), stop))
            && t.now == s.now && t.nextUID == s.nextUID
  {
  }

  /** A reconcile stopped after `stop` writes is a legal step from anywhere. */
  lemma MayControl(cfg: Config, env: Env, s: State, name: string, stop: nat)
    ensures Legal(cfg, env, s, Control(name, ViewNow(s), stop))
  {
  }

  /** A reconcile of `name` that is not stopped. */
  ghost function Fully(cfg: Config, s: State, name: string): Step {
    Control(name, ViewNow(s), |Plan(cfg, s.store, name, s.now, ViewNow(s))|)
  }

  lemma FullyNext(cfg: Config, env: Env, s: State, name: string)
    ensures Legal(cfg, env, s, Fully(cfg, s, name))
    ensures var t := Next(cfg, s, Fully(cfg, s, name));
            && t.store == CommitAll(s.store, Plan(cfg, s.store, name, s.now, ViewNow(s)))
            && t.now == s.now && t.nextUID == s.nextUID
  {
    var plan := Plan(cfg, s.store, name, s.now, ViewNow(s));
    MayControl(cfg, env, s, name, |plan|);
    ControlNext(cfg, s, name, ViewNow(s), |plan|);
    WholePrefix(plan);
  }

  lemma WholePrefix(ws: seq<Write>)
    ensures Prefix(ws, |ws|) == ws
  {
  }

  // ---- Runs ----

  lemma {:induction false} RunThen(cfg: Config, env: Env, s: State, a: seq<Step>, b: seq<Step>)
    requires LegalRun(cfg, env, s, a) && LegalRun(cfg, env, Run(cfg, s, a), b)
    ensures LegalRun(cfg, env, s, a + b) && Run(cfg, s, a + b) == Run(cfg, Run(cfg, s, a), b)
    decreases |a|
  {
    if a == [] {
      assert a + b == b;
    } else {
      RunThen(cfg, env, Next(cfg, s, a[0]), a[1..], b);
      assert (a + b)[1..] == a[1..] + b;
    }
  }

  lemma OneStep(cfg: Config, env: Env, s: State, step: Step)
    requires Legal(cfg, env, s, step)
    ensures LegalRun(cfg, env, s, [step]) && Run(cfg, s, [step]) == Next(cfg, s, step)
  {
    assert [step][1..] == [];
  }

  lemma TwoSteps(cfg: Config, env: Env, s: State, one: Step, two: Step)
    requires Legal(cfg, env, s, one) && Legal(cfg, env, Next(cfg, s, one), two)
    ensures LegalRun(cfg, env, s, [one, two]) && Run(cfg, s, [one, two]) == Next(cfg, Next(cfg, s, one), two)
  {
    OneStep(cfg, env, s, one);
    OneStep(cfg, env, Next(cfg, s, one), two);
    RunThen(cfg, env, s, [one], [two]);
    assert [one] + [two] == [one, two];
  }

  /** Some run from an empty cluster ends in `t`. */
  ghost predicate Reachable(cfg: Config, env: Env, t: State) {
    exists s, steps :: Initial(s) && LegalRun(cfg, env, s, steps) && Run(cfg, s, steps) == t
  }

  lemma ReachStart(cfg: Config, env: Env) returns (s: State)
    ensures Reachable(cfg, env, s) && s.store == Store(map[], map[], [])
  {
    s := State(Store(map[], map[], []), 0, 0, {}, map[], None, []);
    assert Initial(s) && LegalRun(cfg, env, s, []) && Run(cfg, s, []) == s;
  }

  lemma ReachNext(cfg: Config, env: Env, t: State, step: Step)
    requires Reachable(cfg, env, t) && Legal(cfg, env, t, step)
    ensures Reachable(cfg, env, Next(cfg, t, step))
  {
    var s, steps :| Initial(s) && LegalRun(cfg, env, s, steps) && Run(cfg, s, steps) == t;
    OneStep(cfg, env, t, step);
    RunThen(cfg, env, s, steps, [step]);
  }

  lemma ReachInv(cfg: Config, env: Env, t: State)
    requires Reachable(cfg, env, t)
    ensures Inv(cfg, env, t) && GroupInv(t)
  {
    var s, steps :| Initial(s) && LegalRun(cfg, env, s, steps) && Run(cfg, s, steps) == t;
    GroupsStayDisjoint(cfg, env, s, steps);
  }

  /** A reconcile that is not stopped leads on. */
  lemma ReachFully(cfg: Config, env: Env, s: State, name: string) returns (t: State)
    requires Reachable(cfg, env, s)
    ensures Reachable(cfg, env, t) && t.store == CommitAll(s.store, Plan(cfg, s.store, name, s.now, ViewNow(s))) && t.now == s.now
  {
    t := Next(cfg, s, Fully(cfg, s, name));
    FullyNext(cfg, env, s, name);
    ReachNext(cfg, env, s, Fully(cfg, s, name));
  }
}
