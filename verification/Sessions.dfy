/** Single-flight session creation: `_get_session_id` and `_invalidate_session`
    (mesa_mcp/v4_service.py) running concurrently over the keyed locks and the session cache.

    A task between obtaining its key's lock and leaving `hold` is waiting for `start_session`:
    a cache hit returns, and the storing of a new session finishes, without a suspension point. */
module Sessions {
  import opened Wrappers
  import Locks = KeyedLocks
  import opened LruCache

  type Key = string
  type Session = string
  type Cache = seq<Entry<Key, Session>>

  datatype Cause = Expired | EvictedOldest | Invalidated

  /** What has happened to sessions: a session was created and stored, keys lost their cached
      session, or a caller was given a session. */
  datatype Event =
    | Started(key: Key, id: Session)
    | Dropped(keys: set<Key>, cause: Cause)
    | Returned(key: Key, id: Session)

  /** The session cache and the record of what has happened to it. */
  datatype Store = Store(config: Config, cache: Cache, log: seq<Event>)

  datatype World = World(base: Locks.World, store: Store)

  /** `now` and `later` are clock readings; `id` is what the service answered. */
  datatype Action =
    | Enter(task: Locks.Task, key: Key)
    | Begin(task: Locks.Task, now: int, later: int)
    | Finish(task: Locks.Task, id: Session, now: int, later: int)
    | Quit(task: Locks.Task)
    | Invalidate(key: Key, id: Session, now: int, later: int)

  function ValueOf(c: Cache, k: Key): Option<Session> {
    match Find(c, k) case Some(e) => Some(e.value) case None => None
  }

  function Noted(s: Store, e: Event): Store {
    s.(log := s.log + [e])
  }

  /** The cache reduced to `c`, and the record of the keys it lost. */
  function Shrunk(s: Store, c: Cache, cause: Cause): Store {
    Noted(s.(cache := c), Dropped(Keys(s.cache) - Keys(c), cause))
  }

  /** The cache after a lookup. */
  function Looked(s: Store, key: Key, now: int, later: int): Store {
    Shrunk(s, Apply(s.config, s.cache, Op.Get(key, now, later)), Expired)
  }

  /** The cache with a new session stored, and the record of what that evicted. */
  function Added(s: Store, key: Key, id: Session, expires: Option<int>): Store {
    var c := Stored(s.config, s.cache, Entry(key, id, expires));
    Noted(Noted(s.(cache := c), Started(key, id)), Dropped(Keys(s.cache) + {key} - Keys(c), EvictedOldest))
  }

  /** `put`, told apart into pruning and storing. */
  function Kept(s: Store, key: Key, id: Session, now: int, later: int): (s': Store)
    ensures s'.cache == Apply(s.config, s.cache, Op.Put(key, id, None, now, later))
  {
    Added(Shrunk(s, Pruned(s.cache, now), Expired), key, id, Expiry(s.config, None, later))
  }

  /** The whole of the cache's part in an invalidation. */
  function Forgotten(s: Store, key: Key, id: Session, now: int, later: int): Store {
    var s1 := Looked(s, key, now, later);
    if Visible(s.cache, key, now, later) != Some(id) then s1
    else Shrunk(s1, Apply(s.config, s1.cache, Op.Pop(key)), Invalidated)
  }

  function Act(w: World, a: Action): World
    requires Locks.Inv(w.base)
  {
    match a
    case Enter(t, key) => w.(base := Locks.Do(w.base, Locks.Enter(t, key)))
    case Begin(t, now, later) =>
      if !Ready(w.base, t) then w else
        var key := w.base.tasks[t].key;
        var hit := Visible(w.store.cache, key, now, later);
        var s := Looked(w.store, key, now, later);
        Locks.StepKeepsInv(w.base, Locks.Acquire(t));
        var inside := Locks.Do(w.base, Locks.Acquire(t));
        if hit.None? then World(inside, s)
        else World(Locks.Do(inside, Locks.Leave(t)), Noted(s, Returned(key, hit.value)))
    case Finish(t, id, now, later) =>
      if t !in w.base.tasks || w.base.tasks[t].Waiting? then w else
        var key := w.base.tasks[t].key;
        World(Locks.Do(w.base, Locks.Leave(t)), Noted(Kept(w.store, key, id, now, later), Returned(key, id)))
    case Quit(t) => w.(base := Locks.Do(w.base, Locks.Leave(t)))
    case Invalidate(key, id, now, later) => w.(store := Forgotten(w.store, key, id, now, later))
  }

  /** The task waits for a free lock. */
  predicate Ready(b: Locks.World, t: Locks.Task) {
    t in b.tasks && b.tasks[t].Waiting? && b.tasks[t].entry !in b.locks.holder
  }

  // ---------------------------------------------------------------------------
  // What the log says about the cache
  // ---------------------------------------------------------------------------

  /** What one event does to the session in force for a key. */
  function InForce(before: Option<Session>, e: Event, k: Key): Option<Session> {
    match e
    case Started(key, id) => if key == k then Some(id) else before
    case Dropped(keys, _) => if k in keys then None else before
    case Returned(_, _) => before
  }

  /** The session the log leaves in force for a key. */
  function Current(log: seq<Event>, k: Key): Option<Session> {
    if log == [] then None else InForce(Current(log[..|log| - 1], k), log[|log| - 1], k)
  }

  /** No session is started while one is in force, and callers get the one in force. */
  ghost predicate ProperNext(log: seq<Event>, e: Event) {
    match e
    case Started(key, _) => Current(log, key).None?
    case Returned(key, id) => Current(log, key) == Some(id)
    case Dropped(_, _) => true
  }

  ghost predicate Proper(log: seq<Event>, i: nat)
    requires i < |log|
  {
    ProperNext(log[..i], log[i])
  }

  ghost predicate Disciplined(log: seq<Event>) {
    forall i | 0 <= i < |log| :: Proper(log, i)
  }

  ghost predicate Mirrors(s: Store, k: Key) {
    ValueOf(s.cache, k) == Current(s.log, k)
  }

  ghost predicate StoreInv(s: Store) {
    Valid(s.config, s.cache) && Disciplined(s.log) && forall k :: Mirrors(s, k)
  }

  ghost predicate StartingAlone(w: World, t: Locks.Task)
    requires t in w.base.tasks
  {
    w.base.tasks[t].Inside? ==> Current(w.store.log, w.base.tasks[t].key).None?
  }

  ghost predicate Inv(w: World) {
    Locks.Inv(w.base) && StoreInv(w.store) && forall t | t in w.base.tasks :: StartingAlone(w, t)
  }

  lemma Append(log: seq<Event>, e: Event)
    requires Disciplined(log) && ProperNext(log, e)
    ensures Disciplined(log + [e])
    ensures (log + [e])[..|log|] == log
  {
    assert (log + [e])[..|log|] == log;
    assert Proper(log + [e], |log|);
    forall i | 0 <= i < |log + [e]| ensures Proper(log + [e], i) {
      if i < |log| {
        assert Proper(log, i);
        assert (log + [e])[..i] == log[..i];
      }
    }
  }

  /** No key gains a session, except perhaps `k`. */
  ghost predicate NoneGained(before: seq<Event>, after: seq<Event>, except: Option<Key>) {
    forall k | Some(k) != except && Current(before, k).None? :: Current(after, k).None?
  }

  lemma CurrentAfter(log: seq<Event>, e: Event, k: Key)
    ensures Current(log + [e], k) == InForce(Current(log, k), e, k)
  {
    assert (log + [e])[..|log|] == log;
  }

  /** The cache changes only by losing keys, all of them recorded. */
  lemma ShrinkKeeps(s: Store, c: Cache, cause: Cause)
    requires StoreInv(s) && Valid(s.config, c)
    requires forall k :: Find(c, k).None? || Find(c, k) == Find(s.cache, k)
    ensures StoreInv(Shrunk(s, c, cause)) && NoneGained(s.log, Shrunk(s, c, cause).log, None)
  {
    var s', e := Shrunk(s, c, cause), Dropped(Keys(s.cache) - Keys(c), cause);
    Append(s.log, e);
    forall k ensures Mirrors(s', k) && (Current(s.log, k).None? ==> Current(s'.log, k).None?) {
      assert Mirrors(s, k);
      CurrentAfter(s.log, e, k);
    }
  }

  /** A lookup only loses entries, and leaves under its key what it may see. */
  lemma LookShrinks(config: Config, c: Cache, key: Key, now: int, later: int, k: Key)
    requires Valid(config, c)
    ensures var c' := Apply(config, c, Op.Get(key, now, later));
            && (Find(c', k).None? || Find(c', k) == Find(c, k))
            && (k == key ==> ValueOf(c', k) == Visible(c, key, now, later))
  {
    var live := Pruned(c, now);
    FindPruned(c, now, key);
    FindPruned(c, now, k);
    FindWithout(live, key, k);
    var found := Find(live, key);
    if found.Some? && Alive(found.value, later) {
      GetHits(config, c, key, now, later);
    } else {
      GetMisses(config, c, key, now, later);
    }
  }

  lemma LookKeeps(s: Store, key: Key, now: int, later: int)
    requires StoreInv(s)
    ensures StoreInv(Looked(s, key, now, later)) && NoneGained(s.log, Looked(s, key, now, later).log, None)
    ensures ValueOf(Looked(s, key, now, later).cache, key) == Visible(s.cache, key, now, later)
  {
    var op := Op.Get(key, now, later);
    var c := Apply(s.config, s.cache, op);
    ApplyKeepsValid(s.config, s.cache, op);
    forall k ensures Find(c, k).None? || Find(c, k) == Find(s.cache, k) {
      LookShrinks(s.config, s.cache, key, now, later, k);
    }
    LookShrinks(s.config, s.cache, key, now, later, key);
    ShrinkKeeps(s, c, Expired);
  }

  lemma ExpireKeeps(s: Store, now: int)
    requires StoreInv(s)
    ensures var s' := Shrunk(s, Pruned(s.cache, now), Expired);
            StoreInv(s') && NoneGained(s.log, s'.log, None)
  {
    var live := Pruned(s.cache, now);
    forall k ensures Find(live, k).None? || Find(live, k) == Find(s.cache, k) { FindPruned(s.cache, now, k); }
    ShrinkKeeps(s, live, Expired);
  }

  /** Storing under a key that has no session in force. */
  lemma AddKeeps(s: Store, key: Key, id: Session, expires: Option<int>)
    requires StoreInv(s) && Current(s.log, key).None?
    ensures var s' := Added(s, key, id, expires);
            StoreInv(s') && NoneGained(s.log, s'.log, Some(key)) && ValueOf(s'.cache, key) == Some(id)
  {
    var e, s' := Entry(key, id, expires), Added(s, key, id, expires);
    var grown := Snoc(Without(s.cache, key), e);
    var dropped := Dropped(Keys(s.cache) + {key} - Keys(s'.cache), EvictedOldest);
    Append(s.log, Started(key, id));
    Append(s.log + [Started(key, id)], dropped);
    FindEvicted(grown, s.config.max, key);
    forall k ensures Mirrors(s', k) && (k != key && Current(s.log, k).None? ==> Current(s'.log, k).None?) {
      AddMirrors(s, key, id, expires, k);
    }
  }

  lemma AddMirrors(s: Store, key: Key, id: Session, expires: Option<int>, k: Key)
    requires Valid(s.config, s.cache) && Mirrors(s, k)
    ensures Mirrors(Added(s, key, id, expires), k)
    ensures k != key && Current(s.log, k).None? ==> Current(Added(s, key, id, expires).log, k).None?
  {
    var e, s' := Entry(key, id, expires), Added(s, key, id, expires);
    CurrentAfter(s.log, Started(key, id), k);
    CurrentAfter(s.log + [Started(key, id)], Dropped(Keys(s.cache) + {key} - Keys(s'.cache), EvictedOldest), k);
    FindWithout(s.cache, key, k);
    FindEvicted(Snoc(Without(s.cache, key), e), s.config.max, k);
  }

  lemma NoteKeeps(s: Store, e: Event)
    requires StoreInv(s) && e.Returned? && ProperNext(s.log, e)
    ensures StoreInv(Noted(s, e)) && NoneGained(s.log, Noted(s, e).log, None)
  {
    Append(s.log, e);
    forall k ensures Mirrors(Noted(s, e), k) && Current(Noted(s, e).log, k) == Current(s.log, k) {
      assert Mirrors(s, k);
      CurrentAfter(s.log, e, k);
    }
  }

  /** The cache's part in a successful `start_session`. */
  lemma KeepKeeps(s: Store, key: Key, id: Session, now: int, later: int)
    requires StoreInv(s) && Current(s.log, key).None?
    ensures var s' := Noted(Kept(s, key, id, now, later), Returned(key, id));
            StoreInv(s') && NoneGained(s.log, s'.log, Some(key))
  {
    ExpireKeeps(s, now);
    var s1 := Shrunk(s, Pruned(s.cache, now), Expired);
    AddKeeps(s1, key, id, Expiry(s.config, None, later));
    var s2 := Kept(s, key, id, now, later);
    assert Mirrors(s2, key);
    NoteKeeps(s2, Returned(key, id));
  }

  lemma ForgetKeeps(s: Store, key: Key, id: Session, now: int, later: int)
    requires StoreInv(s)
    ensures StoreInv(Forgotten(s, key, id, now, later))
    ensures NoneGained(s.log, Forgotten(s, key, id, now, later).log, None)
  {
    var s1 := Looked(s, key, now, later);
    LookKeeps(s, key, now, later);
    if Visible(s.cache, key, now, later) == Some(id) {
      var c := Without(s1.cache, key);
      forall k ensures Find(c, k).None? || Find(c, k) == Find(s1.cache, k) { FindWithout(s1.cache, key, k); }
      ShrinkKeeps(s1, c, Invalidated);
    }
  }

  // ---------------------------------------------------------------------------
  // Every action keeps the invariant
  // ---------------------------------------------------------------------------

  lemma EnterKeeps(w: World, t: Locks.Task, key: Key)
    requires Inv(w)
    ensures Inv(Act(w, Enter(t, key)))
  {
    Locks.StepKeepsInv(w.base, Locks.Enter(t, key));
    Locks.PhasesAfter(w.base, Locks.Enter(t, key));
    Reattach(w, Locks.Do(w.base, Locks.Enter(t, key)), w.store);
  }

  /** The invariant depends on the tasks only through who has started. */
  lemma Reattach(w: World, base: Locks.World, s: Store)
    requires Locks.Inv(base) && StoreInv(s)
    requires forall t | t in w.base.tasks :: StartingAlone(w, t)
    requires NoneGained(w.store.log, s.log, None)
    requires forall u | u in base.tasks && base.tasks[u].Inside? ::
               u in w.base.tasks && w.base.tasks[u] == base.tasks[u]
    ensures Inv(World(base, s))
  {
    forall u | u in base.tasks ensures StartingAlone(World(base, s), u) {
      if base.tasks[u].Inside? { assert StartingAlone(w, u); }
    }
  }

  /** Leaving is harmless: the others keep their phases. */
  lemma LeaveKeeps(b: Locks.World, t: Locks.Task, s: Store)
    requires Locks.Inv(b) && StoreInv(s)
    requires forall u | u in b.tasks && u != t && b.tasks[u].Inside? :: Current(s.log, b.tasks[u].key).None?
    ensures Inv(World(Locks.Do(b, Locks.Leave(t)), s))
  {
    Locks.StepKeepsInv(b, Locks.Leave(t));
    Locks.PhasesAfter(b, Locks.Leave(t));
  }

  lemma QuitKeeps(w: World, t: Locks.Task)
    requires Inv(w)
    ensures Inv(Act(w, Quit(t)))
  {
    forall u | u in w.base.tasks ensures StartingAlone(w, u) { }
    LeaveKeeps(w.base, t, w.store);
  }

  lemma InvalidateKeeps(w: World, key: Key, id: Session, now: int, later: int)
    requires Inv(w)
    ensures Inv(Act(w, Invalidate(key, id, now, later)))
  {
    ForgetKeeps(w.store, key, id, now, later);
    var w' := Act(w, Invalidate(key, id, now, later));
    forall u | u in w'.base.tasks ensures StartingAlone(w', u) { assert StartingAlone(w, u); }
  }

  /** A task that obtains its lock looks its key up; the others are not concerned. */
  lemma LockThenLook(w: World, t: Locks.Task, now: int, later: int)
    requires Inv(w) && Ready(w.base, t)
    ensures var key, inside := w.base.tasks[t].key, Locks.Do(w.base, Locks.Acquire(t));
            var s := Looked(w.store, key, now, later);
            && Locks.Inv(inside) && StoreInv(s)
            && ValueOf(s.cache, key) == Visible(w.store.cache, key, now, later) == Current(s.log, key)
            && t in inside.tasks && inside.tasks[t].key == key
            && forall u | u in inside.tasks && u != t :: StartingAlone(World(inside, s), u)
  {
    var key, inside := w.base.tasks[t].key, Locks.Do(w.base, Locks.Acquire(t));
    var s := Looked(w.store, key, now, later);
    LookKeeps(w.store, key, now, later);
    assert Mirrors(s, key);
    Locks.StepKeepsInv(w.base, Locks.Acquire(t));
    Locks.PhasesAfter(w.base, Locks.Acquire(t));
    OthersStartAlone(w, t, inside, s);
  }

  lemma BeginKeeps(w: World, t: Locks.Task, now: int, later: int)
    requires Inv(w)
    ensures Inv(Act(w, Begin(t, now, later)))
  {
    if Ready(w.base, t) {
      LockThenLook(w, t, now, later);
      var key, inside := w.base.tasks[t].key, Locks.Do(w.base, Locks.Acquire(t));
      var s, hit := Looked(w.store, key, now, later), Visible(w.store.cache, key, now, later);
      if hit.Some? { HitKeeps(inside, t, key, s, hit.value); }
    }
  }

  lemma HitKeeps(inside: Locks.World, t: Locks.Task, key: Key, s: Store, id: Session)
    requires Locks.Inv(inside) && StoreInv(s) && Current(s.log, key) == Some(id)
    requires forall u | u in inside.tasks && u != t :: StartingAlone(World(inside, s), u)
    ensures Inv(World(Locks.Do(inside, Locks.Leave(t)), Noted(s, Returned(key, id))))
  {
    NoteKeeps(s, Returned(key, id));
    forall u | u in inside.tasks && u != t && inside.tasks[u].Inside?
      ensures Current(s.log, inside.tasks[u].key).None?
    {
      assert StartingAlone(World(inside, s), u);
    }
    LeaveKeeps(inside, t, Noted(s, Returned(key, id)));
  }

  lemma OthersStartAlone(w: World, t: Locks.Task, inside: Locks.World, s: Store)
    requires forall u | u in w.base.tasks :: StartingAlone(w, u)
    requires NoneGained(w.store.log, s.log, None)
    requires forall u | u in inside.tasks && u != t :: u in w.base.tasks && w.base.tasks[u] == inside.tasks[u]
    ensures forall u | u in inside.tasks && u != t :: StartingAlone(World(inside, s), u)
  {
    forall u | u in inside.tasks && u != t ensures StartingAlone(World(inside, s), u) { assert StartingAlone(w, u); }
  }

  lemma FinishKeeps(w: World, t: Locks.Task, id: Session, now: int, later: int)
    requires Inv(w)
    ensures Inv(Act(w, Finish(t, id, now, later)))
  {
    if t in w.base.tasks && w.base.tasks[t].Inside? {
      var key := w.base.tasks[t].key;
      var s := Noted(Kept(w.store, key, id, now, later), Returned(key, id));
      assert StartingAlone(w, t);
      KeepKeeps(w.store, key, id, now, later);
      OthersStayAlone(w, t, s);
      LeaveKeeps(w.base, t, s);
    }
  }

  lemma OthersStayAlone(w: World, t: Locks.Task, s: Store)
    requires Inv(w) && t in w.base.tasks && w.base.tasks[t].Inside?
    requires NoneGained(w.store.log, s.log, Some(w.base.tasks[t].key))
    ensures forall u | u in w.base.tasks && u != t && w.base.tasks[u].Inside? ::
              Current(s.log, w.base.tasks[u].key).None?
  {
    OthersElsewhere(w.base, t);
    forall u | u in w.base.tasks && u != t && w.base.tasks[u].Inside?
      ensures Current(s.log, w.base.tasks[u].key).None?
    {
      assert StartingAlone(w, u);
    }
  }

  lemma OthersElsewhere(b: Locks.World, t: Locks.Task)
    requires Locks.Inv(b) && t in b.tasks && b.tasks[t].Inside?
    ensures forall u | u in b.tasks && u != t && b.tasks[u].Inside? :: b.tasks[u].key != b.tasks[t].key
  {
    Locks.InvIsSafe(b);
  }

  lemma ActKeepsInv(w: World, a: Action)
    requires Inv(w)
    ensures Inv(Act(w, a))
  {
    match a
    case Enter(t, key) => EnterKeeps(w, t, key);
    case Begin(t, now, later) => BeginKeeps(w, t, now, later);
    case Finish(t, id, now, later) => FinishKeeps(w, t, id, now, later);
    case Quit(t) => QuitKeeps(w, t);
    case Invalidate(key, id, now, later) => InvalidateKeeps(w, key, id, now, later);
  }

  ghost function Run(w: World, actions: seq<Action>): (r: World)
    requires Inv(w)
    ensures Inv(r)
    decreases |actions|
  {
    if actions == [] then w else
      ActKeepsInv(w, actions[0]);
      Run(Act(w, actions[0]), actions[1..])
  }

  function Start(maxLocks: nat, config: Config): World {
    World(Locks.Start(maxLocks), Store(config, [], []))
  }

  // ---------------------------------------------------------------------------
  // Single flight
  // ---------------------------------------------------------------------------

  /** The key lost its session strictly between two positions of the log. */
  ghost predicate DroppedBetween(log: seq<Event>, k: Key, i: int, j: int) {
    exists m :: i < m < j && 0 <= m < |log| && log[m].Dropped? && k in log[m].keys
  }

  lemma {:induction false} NoneMeansDropped(log: seq<Event>, k: Key, i: nat, j: nat)
    requires i < j <= |log| && log[i].Started? && log[i].key == k
    requires Current(log[..j], k).None?
    ensures DroppedBetween(log, k, i, j)
    decreases j
  {
    assert log[..j][..j - 1] == log[..j - 1];
    if log[j - 1].Dropped? && k in log[j - 1].keys {
    } else {
      NoneMeansDropped(log, k, i, j - 1);
      var m :| i < m < j - 1 && 0 <= m < |log| && log[m].Dropped? && k in log[m].keys;
    }
  }

  lemma {:induction false} SomeMeansStarted(log: seq<Event>, k: Key, j: nat) returns (i: nat)
    requires j <= |log| && Current(log[..j], k).Some?
    ensures i < j && log[i] == Started(k, Current(log[..j], k).value)
    ensures !DroppedBetween(log, k, i, j)
    decreases j
  {
    assert log[..j][..j - 1] == log[..j - 1];
    if log[j - 1].Started? && log[j - 1].key == k { return j - 1; }
    i := SomeMeansStarted(log, k, j - 1);
  }

  /** Over all interleavings: between two successful `start_session` calls for one key, its
      cached session expired, was evicted or was invalidated. */
  lemma SingleFlight(maxLocks: nat, config: Config, actions: seq<Action>, i: nat, j: nat)
    requires maxLocks >= 1 && config.max >= 1
    ensures Inv(Start(maxLocks, config))
    ensures var log := Run(Start(maxLocks, config), actions).store.log;
            i < j < |log| && log[i].Started? && log[j].Started? && log[i].key == log[j].key ==>
              DroppedBetween(log, log[i].key, i, j)
  {
    var w := Start(maxLocks, config);
    Locks.LocksAreSafe(maxLocks, []);
    forall k ensures Mirrors(w.store, k) { }
    var log := Run(w, actions).store.log;
    if i < j < |log| && log[i].Started? && log[j].Started? && log[i].key == log[j].key {
      assert Proper(log, j);
      NoneMeansDropped(log, log[i].key, i, j);
    }
  }

  /** Every caller is given a session that was started for its key and not dropped since. */
  lemma CallersShareTheSession(maxLocks: nat, config: Config, actions: seq<Action>, j: nat) returns (i: nat)
    requires maxLocks >= 1 && config.max >= 1
    requires Inv(Start(maxLocks, config))
    requires var log := Run(Start(maxLocks, config), actions).store.log; j < |log| && log[j].Returned?
    ensures var log := Run(Start(maxLocks, config), actions).store.log;
            i < j && log[i] == Started(log[j].key, log[j].id) && !DroppedBetween(log, log[j].key, i, j)
  {
    var log := Run(Start(maxLocks, config), actions).store.log;
    assert Proper(log, j);
    i := SomeMeansStarted(log, log[j].key, j);
  }
}
