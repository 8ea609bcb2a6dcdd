/** The bounded LRU and TTL dictionary (mesa_mcp/bounded_cache.py). */
module LruCache {
  import opened Wrappers

  /** One dictionary entry; `expires` is a reading of the monotonic clock. */
  datatype Entry<K(==), V> = Entry(key: K, value: V, expires: Option<int>)

  function Init<T>(c: seq<T>): seq<T>
    requires c != []
  {
    c[..|c| - 1]
  }

  function Last<T>(c: seq<T>): T
    requires c != []
  {
    c[|c| - 1]
  }

  function Keys<K, V>(c: seq<Entry<K, V>>): set<K> {
    if c == [] then {} else Keys(Init(c)) + {Last(c).key}
  }

  predicate Distinct<K, V>(c: seq<Entry<K, V>>) {
    c == [] || (Last(c).key !in Keys(Init(c)) && Distinct(Init(c)))
  }

  predicate Alive<K, V>(e: Entry<K, V>, now: int) {
    e.expires.None? || e.expires.value > now
  }

  function Find<K(==), V>(c: seq<Entry<K, V>>, key: K): (e: Option<Entry<K, V>>)
    ensures e.Some? <==> key in Keys(c)
    ensures e.Some? ==> e.value.key == key
  {
    if c == [] then None
    else if Last(c).key == key then Some(Last(c))
    else Find(Init(c), key)
  }

  /** What a caller reading the clock at `now` and `later` may see under `key`. */
  function Visible<K(==), V>(c: seq<Entry<K, V>>, key: K, now: int, later: int): Option<V> {
    match Find(c, key)
    case Some(e) => if Alive(e, now) && Alive(e, later) then Some(e.value) else None
    case None => None
  }

  /** The entries that have not expired, in order. */
  function Pruned<K, V>(c: seq<Entry<K, V>>, now: int): (r: seq<Entry<K, V>>)
    ensures |r| <= |c| && Keys(r) <= Keys(c)
    ensures Distinct(c) ==> Distinct(r)
  {
    if c == [] then [] else
      var rest := Pruned(Init(c), now);
      if Alive(Last(c), now) then Snoc(rest, Last(c)) else rest
  }

  /** The entries without `key`, in order. */
  function Without<K, V>(c: seq<Entry<K, V>>, key: K): (r: seq<Entry<K, V>>)
    ensures |r| <= |c| && Keys(r) == Keys(c) - {key}
    ensures Distinct(c) ==> Distinct(r)
    ensures (Distinct(c) && key in Keys(c)) ==> |r| < |c|
    ensures key !in Keys(c) ==> r == c
  {
    if c == [] then [] else
      var rest := Without(Init(c), key);
      if Last(c).key == key then rest else Snoc(rest, Last(c))
  }

  function Snoc<K, V>(c: seq<Entry<K, V>>, e: Entry<K, V>): (r: seq<Entry<K, V>>)
    ensures r == c + [e] && Init(r) == c && Last(r) == e
    ensures Keys(r) == Keys(c) + {e.key}
    ensures Distinct(r) <==> Distinct(c) && e.key !in Keys(c)
  {
    var r := c + [e];
    assert r[..|c|] == c;
    r
  }

  /** The newest `max` entries. */
  function Evicted<K, V>(c: seq<Entry<K, V>>, max: nat): (r: seq<Entry<K, V>>)
    ensures |r| == if |c| <= max then |c| else max
    ensures |c| <= max ==> r == c
    ensures Keys(r) <= Keys(c)
    ensures Distinct(c) ==> Distinct(r)
  {
    if max == 0 || c == [] then [] else Snoc(Evicted(Init(c), max - 1), Last(c))
  }

  lemma {:induction false} EvictedIsSuffix<K, V>(c: seq<Entry<K, V>>, max: nat)
    requires |c| > max
    ensures Evicted(c, max) == Evicted(c[1..], max)
  {
    if max > 0 {
      EvictedIsSuffix(Init(c), max - 1);
      InitOfTail(c);
    }
  }

  lemma InitOfTail<T>(c: seq<T>)
    requires |c| >= 2
    ensures Init(c)[1..] == Init(c[1..]) && Last(c) == Last(c[1..])
  {
  }

  /** What pruning leaves is found as before. */
  lemma {:induction false} FindPruned<K, V>(c: seq<Entry<K, V>>, now: int, key: K)
    requires Distinct(c)
    ensures Find(Pruned(c, now), key)
            == (if Find(c, key).Some? && Alive(Find(c, key).value, now) then Find(c, key) else None)
  {
    if c != [] { FindPruned(Init(c), now, key); }
  }

  lemma {:induction false} FindWithout<K, V>(c: seq<Entry<K, V>>, key: K, k: K)
    ensures Find(Without(c, key), k) == if k == key then None else Find(c, k)
  {
    if c != [] { FindWithout(Init(c), key, k); }
  }

  lemma {:induction false} FindEvicted<K, V>(c: seq<Entry<K, V>>, max: nat, k: K)
    ensures Find(Evicted(c, max), k) == Find(c, k) || Find(Evicted(c, max), k).None?
    ensures max > 0 && c != [] && Last(c).key == k ==> Find(Evicted(c, max), k) == Some(Last(c))
  {
    if max > 0 && c != [] { FindEvicted(Init(c), max - 1, k); }
  }

  // ---------------------------------------------------------------------------
  // What each operation does to the dictionary
  // ---------------------------------------------------------------------------

  datatype Config = Config(max: nat, defaultTtl: Option<int>)

  /** One call; `now` and `later` are the clock readings it makes. */
  datatype Op<K, V> =
    | Get(key: K, now: int, later: int)
    | Put(key: K, value: V, ttl: Option<int>, now: int, later: int)
    | SetDefault(key: K, value: V, ttl: Option<int>, now: int, later: int)
    | Pop(key: K)
    | Clear
    | Length(now: int)

  function Expiry(config: Config, ttl: Option<int>, now: int): Option<int> {
    if ttl.Some? then Some(now + ttl.value)
    else if config.defaultTtl.Some? then Some(now + config.defaultTtl.value)
    else None
  }

  /** `key` at the newest end with entry `e`, evicting from the oldest end. */
  function Stored<K, V>(config: Config, c: seq<Entry<K, V>>, e: Entry<K, V>): seq<Entry<K, V>> {
    Evicted(Snoc(Without(c, e.key), e), config.max)
  }

  function Apply<K(==), V>(config: Config, c: seq<Entry<K, V>>, op: Op<K, V>): seq<Entry<K, V>> {
    match op
    case Get(key, now, later) =>
      var live := Pruned(c, now);
      var found := Find(live, key);
      if found.None? then live
      else if !Alive(found.value, later) then Without(live, key)
      else Snoc(Without(live, key), found.value)
    case Put(key, value, ttl, now, later) =>
      Stored(config, Pruned(c, now), Entry(key, value, Expiry(config, ttl, later)))
    case SetDefault(key, value, ttl, now, later) =>
      var live := Pruned(c, now);
      var found := Find(live, key);
      if found.Some? then Snoc(Without(live, key), found.value)
      else Stored(config, live, Entry(key, value, Expiry(config, ttl, later)))
    case Pop(key) => Without(c, key)
    case Clear => []
    case Length(now) => Pruned(c, now)
  }

  function Run<K(==), V>(config: Config, c: seq<Entry<K, V>>, ops: seq<Op<K, V>>): seq<Entry<K, V>>
    decreases |ops|
  {
    if ops == [] then c else Run(config, Apply(config, c, ops[0]), ops[1..])
  }

  ghost predicate Valid<K, V>(config: Config, c: seq<Entry<K, V>>) {
    config.max >= 1 && |c| <= config.max && Distinct(c)
  }

  lemma ApplyKeepsValid<K, V>(config: Config, c: seq<Entry<K, V>>, op: Op<K, V>)
    requires Valid(config, c)
    ensures Valid(config, Apply(config, c, op))
  {
  }

  class BoundedLRUCache<K(==), V> {
    const config: Config
    var cache: seq<Entry<K, V>>

    constructor (maxSize: nat, defaultTtl: Option<int>)
      requires maxSize >= 1
      ensures config == Config(maxSize, defaultTtl) && cache == []
    {
      config := Config(maxSize, defaultTtl);
      cache := [];
    }

    method PruneExpired(now: int)
      modifies this
      ensures cache == Pruned(old(cache), now)
    {
      var kept: seq<Entry<K, V>> := [];
      for i := 0 to |cache|
        invariant cache == old(cache) && kept == Pruned(cache[..i], now)
      {
        assert Init(cache[..i + 1]) == cache[..i];
        if Alive(cache[i], now) { kept := kept + [cache[i]]; }
      }
      assert cache[..|cache|] == cache;
      cache := kept;
    }

    method EvictOldest()
      modifies this
      ensures cache == Evicted(old(cache), config.max)
    {
      while |cache| > config.max
        invariant Evicted(cache, config.max) == Evicted(old(cache), config.max)
        decreases |cache|
      {
        EvictedIsSuffix(cache, config.max);
        cache := cache[1..];
      }
    }

    method Get(key: K, now: int, later: int) returns (r: Option<V>)
      requires Valid(config, cache)
      modifies this
      ensures Valid(config, cache) && cache == Apply(config, old(cache), Op.Get(key, now, later))
      ensures r == Visible(old(cache), key, now, later)
      ensures r.Some? ==> cache != [] && Last(cache).key == key && Last(cache).value == r.value
    {
      FindPruned(cache, now, key);
      ApplyKeepsValid(config, cache, Op.Get(key, now, later));
      PruneExpired(now);
      var found := Find(cache, key);
      if found.None? { return None; }
      cache := Without(cache, key);
      if !Alive(found.value, later) { return None; }
      cache := Snoc(cache, found.value);
      return Some(found.value.value);
    }

    method Put(key: K, value: V, ttl: Option<int>, now: int, later: int)
      requires Valid(config, cache)
      modifies this
      ensures Valid(config, cache) && cache == Apply(config, old(cache), Op.Put(key, value, ttl, now, later))
      ensures cache != [] && Last(cache) == Entry(key, value, Expiry(config, ttl, later))
    {
      ApplyKeepsValid(config, cache, Op.Put(key, value, ttl, now, later));
      PruneExpired(now);
      cache := Snoc(Without(cache, key), Entry(key, value, Expiry(config, ttl, later)));
      EvictOldest();
    }

    method SetDefault(key: K, value: V, ttl: Option<int>, now: int, later: int) returns (r: V)
      requires Valid(config, cache)
      modifies this
      ensures Valid(config, cache) && cache == Apply(config, old(cache), Op.SetDefault(key, value, ttl, now, later))
      ensures r == (match Find(old(cache), key)
                    case Some(e) => if Alive(e, now) then e.value else value
                    case None => value)
      ensures cache != [] && Last(cache).key == key && Last(cache).value == r
    {
      FindPruned(cache, now, key);
      ApplyKeepsValid(config, cache, Op.SetDefault(key, value, ttl, now, later));
      PruneExpired(now);
      var found := Find(cache, key);
      if found.Some? {
        cache := Snoc(Without(cache, key), found.value);
        return found.value.value;
      }
      cache := Snoc(cache, Entry(key, value, Expiry(config, ttl, later)));
      EvictOldest();
      return value;
    }

    method Pop(key: K) returns (r: Option<V>)
      requires Valid(config, cache)
      modifies this
      ensures Valid(config, cache) && cache == Apply(config, old(cache), Op.Pop(key))
      ensures key !in Keys(cache)
      ensures r == match Find(old(cache), key) case Some(e) => Some(e.value) case None => None
    {
      var found := Find(cache, key);
      r := if found.Some? then Some(found.value.value) else None;
      cache := Without(cache, key);
    }

    method Clear()
      modifies this
      ensures cache == []
    {
      cache := [];
    }

    method Len(now: int) returns (n: nat)
      requires Valid(config, cache)
      modifies this
      ensures Valid(config, cache) && cache == Apply(config, old(cache), Op.Length(now))
      ensures n == |cache| <= config.max
    {
      PruneExpired(now);
      n := |cache|;
    }
  }

  // ---------------------------------------------------------------------------
  // The trace theorem
  // ---------------------------------------------------------------------------

  /** The key an operation makes the most recent, if any. */
  function Touched<K(==), V>(c: seq<Entry<K, V>>, op: Op<K, V>): set<K> {
    match op
    case Get(key, now, later) =>
      var found := Find(Pruned(c, now), key);
      if found.Some? && Alive(found.value, later) then {key} else {}
    case Put(key, _, _, _, _) => {key}
    case SetDefault(key, _, _, _, _) => {key}
    case _ => {}
  }

  function Touches<K(==), V>(config: Config, c: seq<Entry<K, V>>, ops: seq<Op<K, V>>): set<K>
    decreases |ops|
  {
    if ops == [] then {} else Touched(c, ops[0]) + Touches(config, Apply(config, c, ops[0]), ops[1..])
  }

  /** `op` neither drops the key of `e` nor reads a clock at which `e` has expired. */
  predicate Spares<K(==), V>(e: Entry<K, V>, op: Op<K, V>) {
    match op
    case Get(key, now, later) => Alive(e, now) && (key == e.key ==> Alive(e, later))
    case Put(_, _, _, now, _) => Alive(e, now)
    case SetDefault(_, _, _, now, _) => Alive(e, now)
    case Pop(key) => key != e.key
    case Clear => false
    case Length(now) => Alive(e, now)
  }

  /** `e` is there and everything more recent is among `t`. */
  predicate Recent<K(==), V(==)>(c: seq<Entry<K, V>>, e: Entry<K, V>, t: set<K>) {
    c != [] && (Last(c) == e || (Last(c).key in t && Recent(Init(c), e, t)))
  }

  lemma {:induction false} RecentIsFound<K, V>(c: seq<Entry<K, V>>, e: Entry<K, V>, t: set<K>)
    requires Recent(c, e, t) && Distinct(c)
    ensures Find(c, e.key) == Some(e)
  {
    if Last(c) != e { RecentIsFound(Init(c), e, t); }
  }

  lemma {:induction false} RecentAmongMore<K, V>(c: seq<Entry<K, V>>, e: Entry<K, V>, t: set<K>, u: set<K>)
    requires Recent(c, e, t) && t <= u
    ensures Recent(c, e, u)
  {
    if Last(c) != e { RecentAmongMore(Init(c), e, t, u); }
  }

  lemma {:induction false} PruningSpares<K, V>(c: seq<Entry<K, V>>, e: Entry<K, V>, t: set<K>, now: int)
    requires Recent(c, e, t) && Alive(e, now)
    ensures Recent(Pruned(c, now), e, t)
  {
    if Last(c) != e { PruningSpares(Init(c), e, t, now); }
  }

  lemma {:induction false} RemovalSpares<K, V>(c: seq<Entry<K, V>>, e: Entry<K, V>, t: set<K>, key: K)
    requires Recent(c, e, t) && e.key != key
    ensures Recent(Without(c, key), e, t)
  {
    if Last(c) != e { RemovalSpares(Init(c), e, t, key); }
  }

  /** Fewer than `max` keys are more recent, so eviction stops before `e`. */
  lemma {:induction false} EvictionSpares<K, V>(c: seq<Entry<K, V>>, e: Entry<K, V>, t: set<K>, max: nat)
    requires Distinct(c) && Recent(c, e, t) && |t| < max
    ensures Recent(Evicted(c, max), e, t)
  {
    if Last(c) != e {
      var rest := t - {Last(c).key};
      RecentNarrows(Init(c), e, t, Last(c).key);
      EvictionSpares(Init(c), e, rest, max - 1);
      RecentAmongMore(Evicted(Init(c), max - 1), e, rest, t);
    }
  }

  lemma {:induction false} RecentNarrows<K, V>(c: seq<Entry<K, V>>, e: Entry<K, V>, t: set<K>, key: K)
    requires Recent(c, e, t) && key !in Keys(c)
    ensures Recent(c, e, t - {key})
  {
    if Last(c) != e { RecentNarrows(Init(c), e, t, key); }
  }

  lemma StoredSpares<K, V>(config: Config, c: seq<Entry<K, V>>, e: Entry<K, V>, t: set<K>, now: int, x: Entry<K, V>)
    requires Valid(config, c) && Recent(c, e, t) && Alive(e, now)
    requires e.key != x.key && |t + {x.key}| < config.max
    ensures Recent(Stored(config, Pruned(c, now), x), e, t + {x.key})
  {
    var live := Pruned(c, now);
    PruningSpares(c, e, t, now);
    MovingSpares(live, e, t, x);
    EvictionSpares(Snoc(Without(live, x.key), x), e, t + {x.key}, config.max);
  }

  lemma MovingSpares<K, V>(c: seq<Entry<K, V>>, e: Entry<K, V>, t: set<K>, x: Entry<K, V>)
    requires Recent(c, e, t) && e.key != x.key
    ensures Recent(Snoc(Without(c, x.key), x), e, t + {x.key})
  {
    RemovalSpares(c, e, t, x.key);
    RecentAmongMore(Without(c, x.key), e, t, t + {x.key});
  }

  lemma ApplySpares<K, V>(config: Config, c: seq<Entry<K, V>>, e: Entry<K, V>, t: set<K>, op: Op<K, V>)
    requires Valid(config, c) && Recent(c, e, t) && Spares(e, op)
    requires e.key !in Touched(c, op) && |t + Touched(c, op)| < config.max
    ensures Recent(Apply(config, c, op), e, t + Touched(c, op))
  {
    assert t + {} == t;
    match op
    case Pop(key) => RemovalSpares(c, e, t, key);
    case Clear => assert false;
    case Length(now) => PruningSpares(c, e, t, now);
    case Get(key, now, later) => GetSpares(config, c, e, t, key, now, later);
    case Put(key, value, ttl, now, later) =>
      StoredSpares(config, c, e, t, now, Entry(key, value, Expiry(config, ttl, later)));
    case SetDefault(key, value, ttl, now, later) =>
      var live := Pruned(c, now);
      var found := Find(live, key);
      if found.None? {
        StoredSpares(config, c, e, t, now, Entry(key, value, Expiry(config, ttl, later)));
      } else {
        PruningSpares(c, e, t, now);
        MovingSpares(live, e, t, found.value);
      }
  }

  /** A lookup that finds nothing live only prunes. */
  lemma GetMisses<K, V>(config: Config, c: seq<Entry<K, V>>, key: K, now: int, later: int)
    requires var found := Find(Pruned(c, now), key); found.None? || !Alive(found.value, later)
    ensures Touched(c, Op.Get(key, now, later)) == {}
    ensures Apply(config, c, Op.Get(key, now, later))
            == if key in Keys(Pruned(c, now)) then Without(Pruned(c, now), key) else Pruned(c, now)
  {
  }

  lemma GetHits<K, V>(config: Config, c: seq<Entry<K, V>>, key: K, now: int, later: int)
    requires var found := Find(Pruned(c, now), key); found.Some? && Alive(found.value, later)
    ensures Touched(c, Op.Get(key, now, later)) == {key}
    ensures Apply(config, c, Op.Get(key, now, later))
            == Snoc(Without(Pruned(c, now), key), Find(Pruned(c, now), key).value)
  {
  }

  lemma GetSpares<K, V>(config: Config, c: seq<Entry<K, V>>, e: Entry<K, V>, t: set<K>, key: K, now: int, later: int)
    requires Valid(config, c) && Recent(c, e, t) && Spares(e, Op.Get(key, now, later))
    requires e.key !in Touched(c, Op.Get(key, now, later))
    ensures Recent(Apply(config, c, Op.Get(key, now, later)), e, t + Touched(c, Op.Get(key, now, later)))
  {
    var live := Pruned(c, now);
    PruningSpares(c, e, t, now);
    RecentIsFound(live, e, t);
    var found := Find(live, key);
    if found.Some? && Alive(found.value, later) {
      GetHits(config, c, key, now, later);
      MovingSpares(live, e, t, found.value);
    } else {
      GetMisses(config, c, key, now, later);
      if found.Some? { RemovalSpares(live, e, t, key); }
      RecentAmongMore(Apply(config, c, Op.Get(key, now, later)), e, t, t + Touched(c, Op.Get(key, now, later)));
    }
  }

  lemma {:induction false} RunSpares<K, V>(
      config: Config, c: seq<Entry<K, V>>, e: Entry<K, V>, t: set<K>, ops: seq<Op<K, V>>)
    requires Valid(config, c) && Recent(c, e, t)
    requires forall i | 0 <= i < |ops| :: Spares(e, ops[i])
    requires e.key !in Touches(config, c, ops) && |t + Touches(config, c, ops)| < config.max
    ensures Find(Run(config, c, ops), e.key) == Some(e)
    decreases |ops|
  {
    if ops == [] {
      RecentIsFound(c, e, t);
    } else {
      var next, t' := Apply(config, c, ops[0]), t + Touched(c, ops[0]);
      assert t + Touches(config, c, ops) == t' + Touches(config, next, ops[1..]);
      Fewer(t', t + Touches(config, c, ops));
      ApplySpares(config, c, e, t, ops[0]);
      ApplyKeepsValid(config, c, ops[0]);
      RunSpares(config, next, e, t', ops[1..]);
    }
  }

  lemma Fewer<T>(a: set<T>, b: set<T>)
    requires a <= b
    ensures |a| <= |b|
  {
    assert b == a + (b - a);
    assert |b| == |a| + |b - a|;
  }

  lemma {:induction false} RunKeepsValid<K, V>(config: Config, c: seq<Entry<K, V>>, ops: seq<Op<K, V>>)
    requires Valid(config, c)
    ensures Valid(config, Run(config, c, ops))
    decreases |ops|
  {
    if ops != [] {
      ApplyKeepsValid(config, c, ops[0]);
      RunKeepsValid(config, Apply(config, c, ops[0]), ops[1..]);
    }
  }

  lemma {:induction false} RunConcat<K, V>(config: Config, c: seq<Entry<K, V>>, a: seq<Op<K, V>>, b: seq<Op<K, V>>)
    ensures Run(config, c, a + b) == Run(config, Run(config, c, a), b)
    decreases |a|
  {
    if a == [] {
      assert a + b == b;
    } else {
      assert (a + b)[0] == a[0] && (a + b)[1..] == a[1..] + b;
      RunConcat(config, Apply(config, c, a[0]), a[1..], b);
    }
  }

  /** A touched key is the most recent one; only storing changes its entry. */
  lemma TouchedIsLast<K, V>(config: Config, c: seq<Entry<K, V>>, op: Op<K, V>)
    requires Valid(config, c) && Touched(c, op) != {}
    ensures Apply(config, c, op) != [] && Touched(c, op) == {Last(Apply(config, c, op)).key}
    ensures var e := Last(Apply(config, c, op));
            if op.Put? then e == Entry(op.key, op.value, Expiry(config, op.ttl, op.later))
            else if op.SetDefault? && !(Find(c, op.key).Some? && Alive(Find(c, op.key).value, op.now)) then
              e == Entry(op.key, op.value, Expiry(config, op.ttl, op.later))
            else Find(c, e.key) == Some(e)
  {
    if op.Get? || op.SetDefault? { FindPruned(c, op.now, op.key); }
  }

  /** How long a stored value is seen: strictly less than its own time to live after it was
      stored, or than the default one if it has none of its own, or for ever. */
  lemma Lifetime<K, V>(config: Config, c: seq<Entry<K, V>>, op: Op<K, V>, t: int, u: int)
    requires Valid(config, c) && op.Put?
    ensures var seen := Visible(Apply(config, c, op), op.key, t, u);
            if op.ttl.Some? then
              seen == (if t - op.later < op.ttl.value && u - op.later < op.ttl.value then Some(op.value) else None)
            else if config.defaultTtl.Some? then
              seen == (if t - op.later < config.defaultTtl.value && u - op.later < config.defaultTtl.value
                       then Some(op.value) else None)
            else seen == Some(op.value)
  {
    TouchedIsLast(config, c, op);
  }

  /** Nothing in `after` drops entry `e` by name or by age, and fewer than `max` distinct keys,
      all other than its own, are touched. */
  ghost predicate Undisturbed<K, V>(config: Config, c: seq<Entry<K, V>>, e: Entry<K, V>, after: seq<Op<K, V>>) {
    && (forall i | 0 <= i < |after| :: Spares(e, after[i]))
    && e.key !in Touches(config, c, after)
    && |Touches(config, c, after)| < config.max
  }

  lemma TraceSplits<K, V>(config: Config, before: seq<Op<K, V>>, touch: Op<K, V>, after: seq<Op<K, V>>)
    ensures Run(config, [], before + [touch]) == Apply(config, Run(config, [], before), touch)
    ensures Run(config, [], before + [touch] + after) == Run(config, Run(config, [], before + [touch]), after)
  {
    RunConcat(config, [], before, [touch]);
    RunConcat(config, [], before + [touch], after);
    assert [touch][1..] == [];
    var start := Run(config, [], before);
    assert Run(config, start, [touch]) == Run(config, Apply(config, start, touch), []);
  }

  /** After any run of operations, an entry whose last touch is followed by touches of fewer
      than `max` distinct other keys, and which is neither popped nor expired since, is still
      there, unchanged; and the size never exceeds `max`. */
  lemma LruTrace<K, V>(config: Config, before: seq<Op<K, V>>, touch: Op<K, V>, after: seq<Op<K, V>>)
    requires config.max >= 1
    requires Touched(Run(config, [], before), touch) != {}
    ensures |Run(config, [], before + [touch] + after)| <= config.max
    ensures Run(config, [], before + [touch]) != []
    ensures var c := Run(config, [], before + [touch]);
            && Touched(Run(config, [], before), touch) == {Last(c).key}
            && (Undisturbed(config, c, Last(c), after) ==>
                  Find(Run(config, [], before + [touch] + after), Last(c).key) == Some(Last(c)))
  {
    var start := Run(config, [], before);
    RunKeepsValid<K, V>(config, [], before);
    TraceSplits(config, before, touch, after);
    var c := Apply(config, start, touch);
    ApplyKeepsValid(config, start, touch);
    RunKeepsValid(config, c, after);
    TouchedIsLast(config, start, touch);
    if Undisturbed(config, c, Last(c), after) {
      assert {} + Touches(config, c, after) == Touches(config, c, after);
      RunSpares(config, c, Last(c), {}, after);
    }
  }
}
