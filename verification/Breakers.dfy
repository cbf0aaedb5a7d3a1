/** The circuit breaker that spaces out self-remediation. */
module Breakers {
  import opened Types
  import opened Seqs

  /** The breaker opens when nothing was allowed yet or the cooldown has passed. */
  predicate Allows(cooldown: int, last: Option<Time>, now: Time) {
    last.None? || now - last.value >= cooldown
  }

  class CircuitBreaker {
    const cooldown: int
    var lastAllowed: Option<Time>

    constructor (cooldown: int)
      ensures this.cooldown == cooldown && lastAllowed == None
    {
      this.cooldown, lastAllowed := cooldown, None;
    }

    method ShouldAllow(now: Time) returns (allowed: bool, remaining: int)
      modifies this
      ensures allowed == Allows(cooldown, old(lastAllowed), now)
      ensures lastAllowed == if allowed then Some(now) else old(lastAllowed)
      ensures if allowed then remaining == 0
              else remaining > 0 && Allows(cooldown, lastAllowed, now + remaining)
                   && forall t :: t < now + remaining ==> !Allows(cooldown, lastAllowed, t)
    {
      if lastAllowed.Some? {
        var elapsed := now - lastAllowed.value;
        if elapsed < cooldown {
          return false, cooldown - elapsed;
        }
      }
      lastAllowed := Some(now);
      return true, 0;
    }
  }

  /** A time at which the breaker allowed something, and how often it had been reset by then. */
  datatype Stamp = Stamp(at: Time, epoch: nat)

  /** In order, and any two of one epoch at least a cooldown apart. */
  ghost predicate Spaced(cooldown: int, ss: seq<Stamp>) {
    forall i, j :: 0 <= i < j < |ss| ==>
      && ss[i].at <= ss[j].at && ss[i].epoch <= ss[j].epoch
      && (ss[i].epoch == ss[j].epoch ==> ss[j].at - ss[i].at >= cooldown)
  }

  /** The epoch of a stamp counts the resets before it. */
  ghost predicate Dated(ss: seq<Stamp>, resets: seq<Time>) {
    && (forall i :: 0 <= i < |ss| ==> ss[i].epoch <= |resets|)
    && (forall i, k :: 0 <= i < |ss| && 0 <= k < |resets| ==>
          if k < ss[i].epoch then resets[k] <= ss[i].at else ss[i].at <= resets[k])
  }

  /** Every stamp after the first that is not paid for by a reset takes a cooldown. */
  lemma {:induction false} SpacedGrows(cooldown: int, ss: seq<Stamp>, i: nat, j: nat)
    requires cooldown > 0 && Spaced(cooldown, ss) && i <= j < |ss|
    ensures ss[i].epoch <= ss[j].epoch
    ensures ss[j].at - ss[i].at >= (j - i - (ss[j].epoch - ss[i].epoch)) * cooldown
    decreases j - i
  {
    if i < j {
      SpacedGrows(cooldown, ss, i, j - 1);
      var d, d' := j - i - (ss[j].epoch - ss[i].epoch), j - 1 - i - (ss[j - 1].epoch - ss[i].epoch);
      if ss[j - 1].epoch == ss[j].epoch {
        assert d * cooldown == d' * cooldown + cooldown;
      } else {
        Scale(d, d', cooldown);
      }
    }
  }

  lemma Scale(a: int, b: int, c: int)
    requires a <= b && c > 0
    ensures a * c <= b * c
  {
    assert b * c - a * c == (b - a) * c;
  }

  function Within(from: Time, span: int): Time -> bool {
    (t: Time) => from <= t <= from + span
  }

  function StampedWithin(from: Time, span: int): Stamp -> bool {
    (s: Stamp) => from <= s.at <= from + span
  }

  lemma FilterSpaced(cooldown: int, ss: seq<Stamp>, resets: seq<Time>, keep: Stamp -> bool)
    requires Spaced(cooldown, ss) && Dated(ss, resets)
    ensures Spaced(cooldown, Filter(keep, ss)) && Dated(Filter(keep, ss), resets)
  {
    FilterKeepsOrder(cooldown, ss, keep);
    var kept := Filter(keep, ss);
    forall i | 0 <= i < |kept| ensures kept[i] in ss {
      FilterMember(keep, ss, kept[i]);
    }
  }

  lemma {:induction false} FilterKeepsOrder(cooldown: int, ss: seq<Stamp>, keep: Stamp -> bool)
    requires Spaced(cooldown, ss)
    ensures Spaced(cooldown, Filter(keep, ss))
  {
    if ss != [] {
      var front, last := ss[..|ss| - 1], ss[|ss| - 1];
      FilterKeepsOrder(cooldown, front, keep);
      var kept := Filter(keep, front);
      forall i | 0 <= i < |kept|
        ensures kept[i].at <= last.at && kept[i].epoch <= last.epoch
        ensures kept[i].epoch == last.epoch ==> last.at - kept[i].at >= cooldown
      {
        FilterMember(keep, front, kept[i]);
        var j :| 0 <= j < |front| && front[j] == kept[i];
        assert ss[j] == kept[i] && ss[|ss| - 1] == last;
      }
    }
  }

  /** A stretch that passes the test counts in full. */
  lemma {:induction false} FilterStretch<T>(keep: T -> bool, xs: seq<T>, a: nat, b: nat)
    requires a <= b <= |xs| && forall k :: a <= k < b ==> keep(xs[k])
    ensures |Filter(keep, xs)| >= b - a
  {
    if b < |xs| {
      FilterStretch(keep, xs[..|xs| - 1], a, b);
    } else if a < b {
      FilterStretch(keep, xs[..|xs| - 1], a, b - 1);
    }
  }

  /** Any interval of length `span` holds at most one, plus one for each reset within it, plus
      `span / cooldown` of them. */
  lemma SpacedRate(cooldown: int, ss: seq<Stamp>, resets: seq<Time>, from: Time, span: int)
    requires cooldown > 0 && span >= 0 && Spaced(cooldown, ss) && Dated(ss, resets)
    ensures |Filter(StampedWithin(from, span), ss)| <= 1 + |Filter(Within(from, span), resets)| + span / cooldown
  {
    var hits := Filter(StampedWithin(from, span), ss);
    QuotientBound(0, cooldown, span);
    if hits != [] {
      FilterSpaced(cooldown, ss, resets, StampedWithin(from, span));
      var n := |hits| - 1;
      SpacedGrows(cooldown, hits, 0, n);
      FilterMember(StampedWithin(from, span), ss, hits[0]);
      FilterMember(StampedWithin(from, span), ss, hits[n]);
      FilterStretch(Within(from, span), resets, hits[0].epoch, hits[n].epoch);
      var paid := n - (hits[n].epoch - hits[0].epoch);
      if paid > 0 {
        QuotientBound(paid, cooldown, span);
      }
    }
  }

  lemma QuotientBound(n: nat, d: int, span: int)
    requires d > 0 && n * d <= span
    ensures n <= span / d
  {
    var over := n - span / d;
    assert over * d == n * d - (span / d) * d;
    assert over * d < d;
    assert over >= 1 ==> over * d >= d;
  }
}
