/** A cancellation that goes on after a failed write. The reconciler modelled here stops at the first
    failure; every store the program may leave instead is left by some such reconciles one after another, so
    that what holds of every run holds of it. */
module Cancellations {
  import opened Types
  import opened Seqs
  import opened Stores
  import opened Provider
  import opened Lifecycle
  import opened Runs
  import opened Admissions
  import opened Staging

  /** The rjobs in `gone` were cancelled and deleted, those in `half` were cancelled and could not be
      deleted, and the others could not be cancelled. */
  function Outcome(s: Store, gone: set<string>, half: set<string>): Store {
    s.(rjobs := map n | n in s.rjobs && n !in gone :: if n in half then s.rjobs[n].(phase := Cancelled) else s.rjobs[n])
  }

  // ---- One rjob listed first ----

  lemma {:induction false} ListingFirst<T>(n: string, rest: seq<string>, m: map<string, T>)
    requires n in m
    ensures Listing([n] + rest, m) == [m[n]] + Listing(rest, m)
  {
    if rest == [] {
      assert [n] + rest == [n] && [n][..0] == [];
      assert Listing([], m) == [];
    } else {
      ListingFirst(n, rest[..|rest| - 1], m);
      assert ([n] + rest)[..|rest|] == [n] + rest[..|rest| - 1];
    }
  }

  lemma {:induction false} FilterFirst<T>(keep: T -> bool, x: T, ys: seq<T>)
    requires keep(x)
    ensures Filter(keep, [x] + ys) == [x] + Filter(keep, ys)
  {
    if ys == [] {
      assert [x] + ys == [x] && [x][..0] == [];
      assert Filter(keep, []) == [];
    } else {
      var front, all := ys[..|ys| - 1], [x] + ys;
      FilterFirst(keep, x, front);
      assert all[..|all| - 1] == [x] + front && all[|all| - 1] == ys[|ys| - 1];
    }
  }

  lemma {:induction false} CancelFirst(r: RJob, rs: seq<RJob>)
    ensures CancelWrites([r] + rs) == [MarkCancelled(r.name), Remove(r.name)] + CancelWrites(rs)
  {
    if rs == [] {
      assert [r] + rs == [r] && [r][..0] == [];
      assert CancelWrites([]) == [];
    } else {
      CancelFirst(r, rs[..|rs| - 1]);
      assert ([r] + rs)[..|rs|] == [r] + rs[..|rs| - 1];
    }
  }

  /** A deletion seen with `n` listed first. */
  ghost function LookFirst(s: State, source: Ref, n: string): Look {
    Look(source, SourceDeleted, [n] + Enumerated(s.store.rjobs.Keys - {n}), false, false, false, "", s.nextUID)
  }

  lemma FirstIsLegal(cfg: Config, env: Env, s: State, p: nat, source: Ref, n: string, stop: nat)
    requires n in s.store.rjobs
    ensures Legal(cfg, env, s, Provide(p, LookFirst(s, source, n), None, stop))
  {
    OnceEach(s.store.rjobs.Keys, n);
  }

  lemma OnceEach(names: set<string>, n: string)
    requires n in names
    ensures multiset([n] + Enumerated(names - {n})) == multiset(names)
  {
    assert names == {n} + (names - {n});
  }

  /** Stopped after one or two writes, it concerns `n` alone. */
  lemma FirstOnly(cfg: Config, s: State, p: nat, source: Ref, n: string, stop: nat)
    requires n in s.store.rjobs && s.store.rjobs[n].name == n && CancelledBy(source)(s.store.rjobs[n]) && 1 <= stop <= 2
    ensures Next(cfg, s, Provide(p, LookFirst(s, source, n), None, stop)).store
            == CommitAll(s.store, [MarkCancelled(n), Remove(n)][..stop])
  {
    DeletionNext(cfg, s, p, LookFirst(s, source, n), stop);
    CancelledFirst(s.store.rjobs, source, n, Enumerated(s.store.rjobs.Keys - {n}), stop);
  }

  lemma CancelledFirst(rjobs: map<string, RJob>, source: Ref, n: string, rest: seq<string>, stop: nat)
    requires n in rjobs && rjobs[n].name == n && CancelledBy(source)(rjobs[n]) && stop <= 2
    ensures Prefix(CancelWrites(Filter(CancelledBy(source), Listing([n] + rest, rjobs))), stop) == [MarkCancelled(n), Remove(n)][..stop]
  {
    ListingFirst(n, rest, rjobs);
    FilterFirst(CancelledBy(source), rjobs[n], Listing(rest, rjobs));
    CancelFirst(rjobs[n], Filter(CancelledBy(source), Listing(rest, rjobs)));
  }

  lemma DeletionNext(cfg: Config, s: State, p: nat, look: Look, stop: nat)
    requires look.observed.SourceDeleted?
    ensures Next(cfg, s, Provide(p, look, None, stop)).store
            == CommitAll(s.store, Prefix(CancelWrites(Filter(CancelledBy(look.source), Listing(look.order, s.store.rjobs))), stop))
  {
  }

  lemma MarkEffect(s: Store, n: string)
    requires n in s.rjobs
    ensures CommitAll(s, [MarkCancelled(n)]) == Outcome(s, {}, {n})
  {
    MarkCommit(s, n);
    HalfOutcome(s, n);
    CommitOne(s, MarkCancelled(n));
  }

  lemma MarkCommit(s: Store, n: string)
    requires n in s.rjobs
    ensures Commit(s, MarkCancelled(n)) == s.(rjobs := s.rjobs[n := s.rjobs[n].(phase := Cancelled)])
  {
  }

  lemma HalfOutcome(s: Store, n: string)
    requires n in s.rjobs
    ensures Outcome(s, {}, {n}) == s.(rjobs := s.rjobs[n := s.rjobs[n].(phase := Cancelled)])
  {
    SameMaps(Outcome(s, {}, {n}).rjobs, s.rjobs[n := s.rjobs[n].(phase := Cancelled)]);
  }

  lemma SameMaps<T>(a: map<string, T>, b: map<string, T>)
    requires (forall n :: n in a <==> n in b) && forall n :: n in a && n in b ==> a[n] == b[n]
    ensures a == b
  {
  }

  lemma RemoveEffect(s: Store, n: string)
    requires n in s.rjobs
    ensures CommitAll(Outcome(s, {}, {n}), [Remove(n)]) == Outcome(s, {n}, {})
  {
    CommitOne(Outcome(s, {}, {n}), Remove(n));
    SameMaps(Outcome(s, {}, {n}).rjobs - {n}, Outcome(s, {n}, {}).rjobs);
  }

  lemma PairEffect(s: Store, n: string, stop: nat)
    requires n in s.rjobs && 1 <= stop <= 2
    ensures CommitAll(s, [MarkCancelled(n), Remove(n)][..stop]) == if stop == 1 then Outcome(s, {}, {n}) else Outcome(s, {n}, {})
  {
    var a, b := [MarkCancelled(n)], [Remove(n)];
    MarkEffect(s, n);
    if stop == 1 {
      assert [MarkCancelled(n), Remove(n)][..stop] == a;
    } else {
      assert [MarkCancelled(n), Remove(n)][..stop] == a + b;
      CommitConcat(s, a, b);
      RemoveEffect(s, n);
    }
  }

  /** The step that cancels `n` and nobody else, with or without deleting it. */
  lemma CancelAlone(cfg: Config, env: Env, s: State, p: nat, source: Ref, n: string, whole: bool) returns (step: Step)
    requires Inv(cfg, env, s) && n in s.store.rjobs && CancelledBy(source)(s.store.rjobs[n])
    ensures Legal(cfg, env, s, step)
    ensures Next(cfg, s, step).store == if whole then Outcome(s.store, {n}, {}) else Outcome(s.store, {}, {n})
  {
    var stop := if whole then 2 else 1;
    step := Provide(p, LookFirst(s, source, n), None, stop);
    FirstIsLegal(cfg, env, s, p, source, n, stop);
    FirstOnly(cfg, s, p, source, n, stop);
    PairEffect(s.store, n, stop);
  }

  // ---- Any outcome ----

  lemma OutcomeThen(s: Store, gone: set<string>, half: set<string>, n: string, whole: bool)
    requires gone !! half && if whole then n in gone else n in half
    ensures var t := if whole then Outcome(s, {n}, {}) else Outcome(s, {}, {n});
            Outcome(t, gone - {n}, half - {n}) == Outcome(s, gone, half)
  {
    var t := if whole then Outcome(s, {n}, {}) else Outcome(s, {}, {n});
    assert Outcome(t, gone - {n}, half - {n}).rjobs == Outcome(s, gone, half).rjobs;
  }

  /** Whichever of a deleted source's rjobs fail to be cancelled or to be deleted, the store that results is
      reached by reconciles of the deletion that stop at their first failure. */
  lemma {:induction false} AnyOutcomeIsReached(cfg: Config, env: Env, s: State, p: nat, source: Ref, gone: set<string>, half: set<string>)
      returns (steps: seq<Step>)
    requires Inv(cfg, env, s) && gone !! half
    requires forall n :: n in gone + half ==> n in s.store.rjobs && CancelledBy(source)(s.store.rjobs[n])
    ensures LegalRun(cfg, env, s, steps) && Run(cfg, s, steps).store == Outcome(s.store, gone, half)
    decreases |gone + half|
  {
    if gone + half == {} {
      steps := [];
      assert Outcome(s.store, gone, half).rjobs == s.store.rjobs;
    } else {
      var n :| n in gone + half;
      var step := CancelAlone(cfg, env, s, p, source, n, n in gone);
      var t := Next(cfg, s, step);
      OutcomeThen(s.store, gone, half, n, n in gone);
      assert Inv(cfg, env, t) by {
        StepKeepsInv(cfg, env, s, step);
      }
      StillThere(s.store, t.store, source, gone, half, n);
      var rest := AnyOutcomeIsReached(cfg, env, t, p, source, gone - {n}, half - {n});
      steps := Prepend(cfg, env, s, step, rest);
    }
  }

  lemma Prepend(cfg: Config, env: Env, s: State, step: Step, rest: seq<Step>) returns (steps: seq<Step>)
    requires Legal(cfg, env, s, step) && LegalRun(cfg, env, Next(cfg, s, step), rest)
    ensures LegalRun(cfg, env, s, steps) && Run(cfg, s, steps) == Run(cfg, Next(cfg, s, step), rest)
  {
    OneStep(cfg, env, s, step);
    RunThen(cfg, env, s, [step], rest);
    steps := [step] + rest;
  }

  lemma StillThere(s: Store, t: Store, source: Ref, gone: set<string>, half: set<string>, n: string)
    requires n in gone + half && (t == Outcome(s, {n}, {}) || t == Outcome(s, {}, {n}))
    requires forall m :: m in gone + half ==> m in s.rjobs && CancelledBy(source)(s.rjobs[m])
    ensures forall m :: m in (gone - {n}) + (half - {n}) ==> m in t.rjobs && CancelledBy(source)(t.rjobs[m])
    ensures |(gone - {n}) + (half - {n})| < |gone + half|
  {
    assert (gone - {n}) + (half - {n}) == (gone + half) - {n};
  }
}
