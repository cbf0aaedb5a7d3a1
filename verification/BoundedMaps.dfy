/** The time- and size-bounded map that remembers when a fingerprint was first seen. */
module BoundedMaps {
  import opened Types

  /** A map's contents and settings. A size or time-to-live of zero or less means no bound. */
  datatype Seen = Seen(data: map<string, Time>, maxSize: int, ttl: int, lastCleanup: Time, interval: int)

  const FIVE_MINUTES: int := 300_000_000_000

  function Fresh(maxSize: int, ttl: int, interval: int, now: Time): Seen {
    Seen(map[], maxSize, ttl, now, if interval > 0 then interval else if ttl > 0 then ttl / 2 else FIVE_MINUTES)
  }

  predicate NeedsCleanup(m: Seen, now: Time) {
    m.ttl > 0 && now - m.lastCleanup > m.interval
  }

  function Survivors(data: map<string, Time>, cutoff: Time): map<string, Time> {
    map k | k in data && data[k] >= cutoff :: data[k]
  }

  function Cleaned(m: Seen, now: Time): Seen {
    if NeedsCleanup(m, now) then m.(data := Survivors(m.data, now - m.ttl), lastCleanup := now) else m
  }

  function Lookup(m: Seen, key: string): Option<Time> {
    if key in m.data then Some(m.data[key]) else None
  }

  /** What a read returns. It cannot clean up, so it hides what a cleanup would have removed. */
  function GetAt(m: Seen, key: string, now: Time): Option<Time> {
    if NeedsCleanup(m, now) && m.ttl > 0 && key in m.data && now - m.data[key] > m.ttl then None
    else Lookup(m, key)
  }

  /** No entry is older than `k`'s. */
  ghost predicate IsOldest(data: map<string, Time>, k: string) {
    k in data && forall j :: j in data ==> data[k] <= data[j]
  }

  predicate MustEvict(m: Seen, key: string) {
    m.maxSize > 0 && |m.data| >= m.maxSize && key !in m.data
  }

  /** Storing a time for `key`. A full map makes room by dropping `victim`. */
  function SetAt(m: Seen, key: string, at: Time, now: Time, victim: string): Seen {
    var c := Cleaned(m, now);
    if MustEvict(c, key) then c.(data := (c.data - {victim})[key := at]) else c.(data := c.data[key := at])
  }

  function Cleared(m: Seen, now: Time): Seen {
    m.(data := map[], lastCleanup := now)
  }

  // ---- The object ----

  class BoundedMap {
    var data: map<string, Time>
    const maxSize: int
    const ttl: int
    var lastCleanup: Time
    const cleanupInterval: int

    ghost function Contents(): Seen
      reads this
    {
      Seen(data, maxSize, ttl, lastCleanup, cleanupInterval)
    }

    constructor (maxSize: int, ttl: int, cleanupInterval: int, now: Time)
      ensures Contents() == Fresh(maxSize, ttl, cleanupInterval, now)
    {
      var interval := cleanupInterval;
      if interval <= 0 {
        if ttl > 0 {
          interval := ttl / 2;
        } else {
          interval := FIVE_MINUTES;
        }
      }
      data := map[];
      this.maxSize, this.ttl, lastCleanup, this.cleanupInterval := maxSize, ttl, now, interval;
    }

    method SetWithTime(key: string, at: Time, now: Time) returns (ok: bool, ghost victim: string)
      modifies this
      ensures ok
      ensures Contents() == SetAt(old(Contents()), key, at, now, victim)
      ensures MustEvict(Cleaned(old(Contents()), now), key) ==> IsOldest(Cleaned(old(Contents()), now).data, victim)
    {
      victim := "";
      CleanupIfNeeded(now);
      if maxSize > 0 && |data| >= maxSize {
        if key in data {
          data := data[key := at];
          return true, victim;
        }
        assert data != map[];
        var oldest := FindOldest();
        victim := oldest;
        data := data - {oldest};
      }
      data := data[key := at];
      return true, victim;
    }

    /** Ranges over the map in no particular order, keeping the earliest entry met so far. */
    method FindOldest() returns (oldestKey: string)
      requires data != map[]
      ensures IsOldest(data, oldestKey)
    {
      var left := data.Keys;
      oldestKey :| oldestKey in left;
      left := left - {oldestKey};
      while left != {}
        invariant oldestKey in data && left <= data.Keys
        invariant forall k :: k in data && k !in left ==> data[oldestKey] <= data[k]
      {
        var k :| k in left;
        left := left - {k};
        if data[k] < data[oldestKey] {
          oldestKey := k;
        }
      }
    }

    method Get(key: string, now: Time) returns (at: Option<Time>)
      ensures at == GetAt(Contents(), key, now)
      ensures at == Lookup(Cleaned(Contents(), now), key)
    {
      if ttl > 0 && now - lastCleanup > cleanupInterval {
        if key in data {
          if now - data[key] > ttl {
            return None;
          }
          return Some(data[key]);
        }
      }
      return if key in data then Some(data[key]) else None;
    }

    method Delete(key: string)
      modifies this
      ensures Contents() == old(Contents()).(data := old(data) - {key})
    {
      data := data - {key};
    }

    method Clear(now: Time)
      modifies this
      ensures Contents() == Cleared(old(Contents()), now)
      ensures data == map[] && lastCleanup == now
    {
      data := map[];
      lastCleanup := now;
    }

    method CleanupIfNeeded(now: Time)
      modifies this
      ensures Contents() == Cleaned(old(Contents()), now)
    {
      if !(ttl > 0 && now - lastCleanup > cleanupInterval) {
        return;
      }
      var cutoff := now - ttl;
      var left := data.Keys;
      while left != {}
        invariant left <= old(data).Keys && unchanged(`lastCleanup)
        invariant data.Keys <= old(data).Keys
        invariant forall k :: k in old(data) ==>
          if k in left || old(data)[k] >= cutoff then k in data && data[k] == old(data)[k] else k !in data
      {
        var k :| k in left;
        left := left - {k};
        if data[k] < cutoff {
          data := data - {k};
        }
      }
      assert data == Survivors(old(data), cutoff);
      lastCleanup := now;
    }
  }

  // ---- What the map guarantees ----

  /** A read that cannot clean up returns exactly what a lookup after cleaning up at the same
      instant would, at the boundary included. */
  lemma LazyReadRefinesCleanup(m: Seen, key: string, now: Time)
    ensures GetAt(m, key, now) == Lookup(Cleaned(m, now), key)
    ensures GetAt(m, key, now) ==
            if key in m.data && !(0 < m.ttl < now - m.data[key] && now - m.lastCleanup > m.interval) then Some(m.data[key]) else None
  {
    if NeedsCleanup(m, now) && key in m.data {
      assert key in Survivors(m.data, now - m.ttl) <==> m.data[key] >= now - m.ttl;
    }
  }

  datatype Op = Set(key: string, at: Time, now: Time, victim: string) | Delete(gone: string) | Clear(when: Time) | Cleanup(when: Time)

  /** An eviction takes one of the oldest entries; which one of several is up to map order. */
  ghost predicate Allowed(m: Seen, op: Op) {
    op.Set? && MustEvict(Cleaned(m, op.now), op.key) ==> IsOldest(Cleaned(m, op.now).data, op.victim)
  }

  function Do(m: Seen, op: Op): Seen {
    match op
    case Set(key, at, now, victim) => SetAt(m, key, at, now, victim)
    case Delete(key) => m.(data := m.data - {key})
    case Clear(now) => Cleared(m, now)
    case Cleanup(now) => Cleaned(m, now)
  }

  ghost predicate AllAllowed(m: Seen, ops: seq<Op>)
    decreases |ops|
  {
    ops != [] ==> Allowed(m, ops[0]) && AllAllowed(Do(m, ops[0]), ops[1..])
  }

  function DoAll(m: Seen, ops: seq<Op>): Seen
    decreases |ops|
  {
    if ops == [] then m else DoAll(Do(m, ops[0]), ops[1..])
  }

  lemma SubmapSize(small: map<string, Time>, big: map<string, Time>)
    requires small.Keys <= big.Keys
    ensures |small| <= |big|
  {
    assert |small| == |small.Keys| && |big| == |big.Keys|;
    var extra := big.Keys - small.Keys;
    assert big.Keys == small.Keys + extra;
  }

  lemma SetKeepsBound(m: Seen, key: string, at: Time, now: Time, victim: string)
    requires m.maxSize > 0 && |m.data| <= m.maxSize && Allowed(m, Set(key, at, now, victim))
    ensures |SetAt(m, key, at, now, victim).data| <= m.maxSize && SetAt(m, key, at, now, victim).maxSize == m.maxSize
  {
    var c := Cleaned(m, now);
    SubmapSize(c.data, m.data);
    if MustEvict(c, key) {
      var rest := c.data - {victim};
      assert rest.Keys == c.data.Keys - {victim};
      assert rest[key := at].Keys == rest.Keys + {key};
    } else {
      assert c.data[key := at].Keys == c.data.Keys + {key};
    }
  }

  /** One operation never takes a map over its bound. */
  lemma DoKeepsBound(m: Seen, op: Op)
    requires m.maxSize > 0 && |m.data| <= m.maxSize && Allowed(m, op)
    ensures |Do(m, op).data| <= m.maxSize && Do(m, op).maxSize == m.maxSize
  {
    match op
    case Set(key, at, now, victim) =>
      SetKeepsBound(m, key, at, now, victim);
    case Delete(key) =>
      SubmapSize(m.data - {key}, m.data);
    case Clear(now) =>
    case Cleanup(now) =>
      SubmapSize(Cleaned(m, now).data, m.data);
  }

  /** The bound holds after every sequence of operations. */
  lemma {:induction false} SizeStaysBounded(m: Seen, ops: seq<Op>)
    requires m.maxSize > 0 && |m.data| <= m.maxSize && AllAllowed(m, ops)
    ensures |DoAll(m, ops).data| <= m.maxSize
    decreases |ops|
  {
    if ops != [] {
      DoKeepsBound(m, ops[0]);
      SizeStaysBounded(Do(m, ops[0]), ops[1..]);
    }
  }

  /** A new key in a full map costs exactly one entry, one of minimal time; the rest stay. */
  lemma EvictsExactlyTheOldest(m: Seen, key: string, at: Time, now: Time, victim: string)
    requires Allowed(m, Set(key, at, now, victim)) && MustEvict(Cleaned(m, now), key)
    ensures var before, after := Cleaned(m, now).data, SetAt(m, key, at, now, victim).data;
            && after.Keys == before.Keys - {victim} + {key}
            && |after| == |before|
            && (forall k :: k in before && k != victim ==> after[k] == before[k])
            && (forall k :: k in before ==> before[victim] <= before[k])
            && after[key] == at
  {
    var before := Cleaned(m, now).data;
    var rest := before - {victim};
    assert rest.Keys == before.Keys - {victim};
    assert rest[key := at].Keys == rest.Keys + {key};
  }

  /** Overwriting, or a new key where there is room, costs only the entries that are too old, and those only
      when a cleanup is due. */
  lemma RoomCostsNothing(m: Seen, key: string, at: Time, now: Time, victim: string, k: string)
    requires key in Cleaned(m, now).data || m.maxSize <= 0 || |Cleaned(m, now).data| < m.maxSize
    ensures var after := SetAt(m, key, at, now, victim).data;
            && key in after && after[key] == at
            && (k != key ==>
                  (k in after <==> k in m.data && !(0 < m.ttl < now - m.data[k] && now - m.lastCleanup > m.interval))
                  && (k in after ==> after[k] == m.data[k]))
  {
  }

  /** No entry outlived the last cleanup by more than the time-to-live. */
  ghost predicate Timely(m: Seen) {
    m.ttl > 0 ==> forall k :: k in m.data ==> m.data[k] >= m.lastCleanup - m.ttl
  }

  /** Whatever a read returns is at most one time-to-live plus one cleanup interval old. */
  lemma ReadsAreRecent(m: Seen, key: string, now: Time)
    requires Timely(m) && m.ttl > 0 && m.interval >= 0
    requires GetAt(m, key, now).Some?
    ensures now - GetAt(m, key, now).value <= m.ttl + m.interval
  {
  }
}
