/** The freshness cache (pkg/cache/cache.go): one optional snapshot stamped with
    the instant it was stored, a time-to-live, a stale window, and hit/miss
    counters. The clock is an explicit `now` parameter; durations are integers
    in the same unit. */
module Cache {
  import opened Wrappers
  import opened Types

  /** The three ways a read of stored data can be classified. */
  datatype Freshness = Fresh | Stale | Expired

  /** Classification of data whose age is `age`: fresh up to `ttl`, stale but
      usable up to `ttl + maxStale`, expired after that. */
  function Classify(age: int, ttl: int, maxStale: int): (r: Freshness)
    ensures r == Fresh <==> age <= ttl
    ensures r == Stale <==> ttl < age <= ttl + maxStale
    ensures r == Expired <==> age > ttl && age > ttl + maxStale
  {
    if age <= ttl then Fresh
    else if age <= ttl + maxStale then Stale
    else Expired
  }

  datatype Cache = Cache(
    data: Option<CostResponse>,
    fetchedAt: int,
    ttl: int,
    maxStale: int,
    hits: nat,
    misses: nat)

  /** What a read returns: the data, whether it is stale, whether it was found. */
  datatype Lookup = Lookup(data: Option<CostResponse>, isStale: bool, ok: bool)

  /** The absent answer, returned on an empty cache and on expired data. */
  const NotFound := Lookup(None, false, false)

  /** A new cache holds nothing and has counted nothing. */
  function New(ttl: int, maxStale: int): (c: Cache)
    ensures !IsPopulated(c)
    ensures Stats(c) == (0, 0)
    ensures c.ttl == ttl && c.maxStale == maxStale
  {
    Cache(None, 0, ttl, maxStale, 0, 0)
  }

  /** Reads the cache at instant `now`; returns the answer and the cache with
      exactly one of its two counters bumped. */
  function Get(c: Cache, now: int): (r: (Lookup, Cache))
    // Only the counters change, and exactly one of them goes up by one.
    ensures r.1.data == c.data && r.1.fetchedAt == c.fetchedAt
    ensures r.1.ttl == c.ttl && r.1.maxStale == c.maxStale
    ensures r.1.hits + r.1.misses == c.hits + c.misses + 1
    ensures r.1.hits >= c.hits && r.1.misses >= c.misses
    ensures r.1.hits == c.hits + 1 <==> r.0.ok
    // Empty cache: a miss.
    ensures c.data.None? ==> r.0 == NotFound
    // Fresh data.
    ensures c.data.Some? && now - c.fetchedAt <= c.ttl ==> r.0 == Lookup(c.data, false, true)
    // Stale but within the stale window.
    ensures (c.data.Some? && c.ttl < now - c.fetchedAt <= c.ttl + c.maxStale)
              ==> r.0 == Lookup(c.data, true, true)
    // Too old: reported as absent although it is still stored.
    ensures (c.data.Some? && now - c.fetchedAt > c.ttl && now - c.fetchedAt > c.ttl + c.maxStale)
              ==> r.0 == NotFound && IsPopulated(r.1)
  {
    if c.data.None? then
      (NotFound, c.(misses := c.misses + 1))
    else
      match Classify(now - c.fetchedAt, c.ttl, c.maxStale)
      case Fresh => (Lookup(c.data, false, true), c.(hits := c.hits + 1))
      case Stale => (Lookup(c.data, true, true), c.(hits := c.hits + 1))
      case Expired => (NotFound, c.(misses := c.misses + 1))
  }

  /** Stores `d` (possibly nil) stamped with `now`. */
  function Set(c: Cache, d: Option<CostResponse>, now: int): (r: Cache)
    ensures r.data == d
    ensures Age(r, now) == 0
    ensures r.ttl == c.ttl && r.maxStale == c.maxStale
    ensures Stats(r) == Stats(c)
  {
    c.(data := d, fetchedAt := now)
  }

  /** Age of the stored data at `now`, or 0 when nothing is stored. */
  function Age(c: Cache, now: int): (r: int)
    ensures c.data.None? ==> r == 0
    ensures c.data.Some? ==> c.fetchedAt + r == now
  {
    if c.data.None? then 0 else now - c.fetchedAt
  }

  /** The hit and miss counters. */
  function Stats(c: Cache): (r: (nat, nat))
    ensures r.0 == c.hits && r.1 == c.misses
  {
    (c.hits, c.misses)
  }

  /** Whether data is stored, regardless of its age. */
  function IsPopulated(c: Cache): (r: bool)
    ensures r <==> c.data.Some?
    ensures !r ==> forall now :: Age(c, now) == 0
  {
    c.data.Some?
  }

  /** Get classifies by the same age that Age reports: the answer is found
      exactly when data is stored and Age is within ttl or ttl + maxStale, and
      stale exactly when data is stored and Age is beyond ttl but within
      ttl + maxStale. */
  lemma GetAgreesWithAge(c: Cache, now: int)
    ensures Get(c, now).0.ok <==> IsPopulated(c) && (Age(c, now) <= c.ttl || Age(c, now) <= c.ttl + c.maxStale)
    ensures Get(c, now).0.isStale <==> IsPopulated(c) && c.ttl < Age(c, now) <= c.ttl + c.maxStale
    ensures Get(c, now).0.ok ==> Get(c, now).0.data == c.data
  {
  }

  /** Storing data and reading it back at the same instant gives it back fresh
      and counts one hit (for a non-negative ttl). */
  lemma SetThenGet(c: Cache, d: CostResponse, now: int)
    requires c.ttl >= 0
    ensures Get(Set(c, Some(d), now), now).0 == Lookup(Some(d), false, true)
    ensures Stats(Get(Set(c, Some(d), now), now).1) == (c.hits + 1, c.misses)
  {
  }

  /** After a Set, the age grows exactly with the clock. */
  lemma AgeAfterSet(c: Cache, d: CostResponse, t: int, elapsed: int)
    ensures Age(Set(c, Some(d), t), t + elapsed) == elapsed
  {
  }

  /** Position of a class in the order data moves through as it ages. */
  function Rank(f: Freshness): nat
  {
    match f
    case Fresh => 0
    case Stale => 1
    case Expired => 2
  }

  /** With no intervening Set, time only moves data forward through
      Fresh, Stale, Expired and never back. */
  lemma ClassifyMonotone(age1: int, age2: int, ttl: int, maxStale: int)
    requires age1 <= age2
    ensures Rank(Classify(age1, ttl, maxStale)) <= Rank(Classify(age2, ttl, maxStale))
  {
  }

  /** A sequence of cache operations at given instants. */
  datatype Op = GetAt(now: int) | SetAt(d: Option<CostResponse>, at: int)

  function Apply(c: Cache, op: Op): Cache
  {
    match op
    case GetAt(now) => Get(c, now).1
    case SetAt(d, at) => Set(c, d, at)
  }

  function Replay(c: Cache, ops: seq<Op>): Cache
    decreases |ops|
  {
    if |ops| == 0 then c else Replay(Apply(c, ops[0]), ops[1..])
  }

  function CountGets(ops: seq<Op>): nat
    decreases |ops|
  {
    if |ops| == 0 then 0 else (if ops[0].GetAt? then 1 else 0) + CountGets(ops[1..])
  }

  /** Over any run of operations the counters never decrease, together they
      grow by exactly the number of reads, and the configuration is kept. */
  lemma {:induction false} ReplayCounters(c: Cache, ops: seq<Op>)
    ensures Replay(c, ops).hits >= c.hits && Replay(c, ops).misses >= c.misses
    ensures Replay(c, ops).hits + Replay(c, ops).misses == c.hits + c.misses + CountGets(ops)
    ensures Replay(c, ops).ttl == c.ttl && Replay(c, ops).maxStale == c.maxStale
    decreases |ops|
  {
    if |ops| > 0 {
      ReplayCounters(Apply(c, ops[0]), ops[1..]);
    }
  }

  /** Data that is stored stays stored: only a Set can change it, so a run of
      reads leaves the cache populated even once the data has expired. */
  lemma {:induction false} ReadsKeepData(c: Cache, ops: seq<Op>)
    requires forall i :: 0 <= i < |ops| ==> ops[i].GetAt?
    ensures Replay(c, ops).data == c.data && Replay(c, ops).fetchedAt == c.fetchedAt
    decreases |ops|
  {
    if |ops| > 0 {
      ReadsKeepData(Apply(c, ops[0]), ops[1..]);
    }
  }

  /** After any run ending with a Set of real data, the cache is populated. */
  lemma {:induction false} PopulatedAfterSet(c: Cache, ops: seq<Op>, d: CostResponse, at: int)
    ensures IsPopulated(Replay(c, ops + [SetAt(Some(d), at)]))
    decreases |ops|
  {
    if |ops| == 0 {
      assert ops + [SetAt(Some(d), at)] == [SetAt(Some(d), at)];
    } else {
      assert (ops + [SetAt(Some(d), at)])[1..] == ops[1..] + [SetAt(Some(d), at)];
      PopulatedAfterSet(Apply(c, ops[0]), ops[1..], d, at);
    }
  }
}
