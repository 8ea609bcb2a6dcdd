/** Bounded keyed locks shared by concurrent tasks (mesa_mcp/bounded_cache.py).

    The sections under the guard contain no suspension point, so each runs as one step:
    entering, obtaining the entry's lock, and leaving (by finishing or by being cancelled). */
module KeyedLocks {
  import opened Wrappers

  type Key = string
  type Task = nat

  /** The dictionary from key to entry object, and the objects' fields: `users`, and the task
      holding the lock, if any. Objects are told apart by their number. */
  datatype Locks = Locks(max: nat, entries: map<Key, nat>, users: map<nat, nat>, holder: map<nat, Task>, next: nat)

  /** Where a task is inside `hold`; a task that is not in it has no phase. */
  datatype Phase = Waiting(key: Key, entry: nat) | Inside(key: Key, entry: nat)

  datatype World = World(locks: Locks, tasks: map<Task, Phase>)

  datatype Step = Enter(task: Task, key: Key) | Acquire(task: Task) | Leave(task: Task)

  // ---------------------------------------------------------------------------
  // The three sections of `hold`
  // ---------------------------------------------------------------------------

  function Entered(l: Locks, key: Key): Option<Locks>
    requires key in l.entries ==> l.entries[key] in l.users
  {
    if key in l.entries then
      Some(l.(users := l.users[l.entries[key] := l.users[l.entries[key]] + 1]))
    else if |l.entries| >= l.max then None
    else Some(l.(entries := l.entries[key := l.next], users := l.users[l.next := 1], next := l.next + 1))
  }

  function Left(l: Locks, key: Key, entry: nat, acquired: bool): Locks
    requires entry in l.users && l.users[entry] > 0
  {
    var count := l.users[entry] - 1;
    l.(holder := if acquired then l.holder - {entry} else l.holder,
       users := l.users[entry := count],
       entries := if count == 0 && key in l.entries && l.entries[key] == entry then l.entries - {key} else l.entries)
  }

  class BoundedAsyncKeyedLocks {
    const max: nat
    var entries: map<Key, nat>
    var users: map<nat, nat>
    var holder: map<nat, Task>
    var next: nat

    ghost function State(): Locks
      reads this
    {
      Locks(max, entries, users, holder, next)
    }

    constructor (maxSize: nat)
      requires maxSize >= 1
      ensures State() == Locks(maxSize, map[], map[], map[], 0)
    {
      max, entries, users, holder, next := maxSize, map[], map[], map[], 0;
    }

    method BeginHold(key: Key) returns (r: Result<nat, string>)
      requires key in entries ==> entries[key] in users
      modifies this
      ensures r.Failure? <==> Entered(old(State()), key).None?
      ensures r.Failure? ==> State() == old(State())
      ensures r.Success? ==> Entered(old(State()), key) == Some(State()) && key in entries && entries[key] == r.value
    {
      var entry;
      if key in entries {
        entry := entries[key];
      } else {
        if |entries| >= max { return Failure("session lock capacity exhausted"); }
        entry, next := next, next + 1;
        entries, users := entries[key := entry], users[entry := 0];
      }
      users := users[entry := users[entry] + 1];
      assert old(key !in entries) ==> users == old(users)[entry := 1];
      return Success(entry);
    }

    method EndHold(key: Key, entry: nat, acquired: bool)
      requires entry in users && users[entry] > 0
      modifies this
      ensures State() == Left(old(State()), key, entry, acquired)
    {
      if acquired { holder := holder - {entry}; }
      users := users[entry := users[entry] - 1];
      if users[entry] == 0 && key in entries && entries[key] == entry { entries := entries - {key}; }
    }
  }

  // ---------------------------------------------------------------------------
  // Interleavings
  // ---------------------------------------------------------------------------

  /** The tasks that use an entry object. */
  function Within(tasks: map<Task, Phase>, entry: nat): set<Task> {
    set t | t in tasks && tasks[t].entry == entry
  }

  predicate EntrySound(l: Locks, k: Key) {
    k in l.entries && l.entries[k] < l.next && l.entries[k] in l.users
  }

  predicate Apart(l: Locks, k: Key, m: Key) {
    k in l.entries && m in l.entries && l.entries[k] == l.entries[m] ==> k == m
  }

  ghost predicate EntriesSound(l: Locks) {
    && l.max >= 1 && |l.entries| <= l.max
    && (forall k | k in l.entries :: EntrySound(l, k))
    && (forall k: Key, m: Key :: Apart(l, k, m))
  }

  /** The task's entry is the one in the dictionary. */
  predicate Attached(w: World, t: Task) {
    t in w.tasks && w.tasks[t].key in w.locks.entries && w.locks.entries[w.tasks[t].key] == w.tasks[t].entry
  }

  ghost predicate Counted(w: World, k: Key) {
    && k in w.locks.entries && w.locks.entries[k] in w.locks.users
    && w.locks.users[w.locks.entries[k]] == |Within(w.tasks, w.locks.entries[k])| > 0
  }

  predicate Holds(w: World, entry: nat, t: Task) {
    entry in w.locks.holder && w.locks.holder[entry] == t
  }

  predicate HeldIffInside(w: World, t: Task) {
    t in w.tasks && (w.tasks[t].Inside? <==> Holds(w, w.tasks[t].entry, t))
  }

  predicate HolderIsThere(w: World, e: nat) {
    e in w.locks.holder && w.locks.holder[e] in w.tasks && w.tasks[w.locks.holder[e]].entry == e
  }

  /** An entry is in the dictionary, unreplaced, exactly while a task uses it; `users` counts
      those tasks; the lock is held exactly by the task inside. */
  ghost predicate Inv(w: World) {
    && EntriesSound(w.locks)
    && (forall t | t in w.tasks :: Attached(w, t))
    && (forall k | k in w.locks.entries :: Counted(w, k))
    && (forall t | t in w.tasks :: HeldIffInside(w, t))
    && (forall e | e in w.locks.holder :: HolderIsThere(w, e))
  }

  /** A step of one task; a step that is not enabled changes nothing. */
  function Do(w: World, step: Step): World
    requires Inv(w)
  {
    match step
    case Enter(t, key) =>
      if t in w.tasks then w else
        assert key in w.locks.entries ==> Counted(w, key);
        var next := Entered(w.locks, key);
        if next.None? then w
        else World(next.value, w.tasks[t := Waiting(key, next.value.entries[key])])
    case Acquire(t) =>
      if t !in w.tasks || w.tasks[t].Inside? || w.tasks[t].entry in w.locks.holder then w
      else World(w.locks.(holder := w.locks.holder[w.tasks[t].entry := t]),
                 w.tasks[t := Inside(w.tasks[t].key, w.tasks[t].entry)])
    case Leave(t) =>
      if t !in w.tasks then w else
        var p := w.tasks[t];
        assert Attached(w, t) && Counted(w, p.key);
        World(Left(w.locks, p.key, p.entry, p.Inside?), w.tasks - {t})
  }

  lemma EnterKeepsInv(w: World, t: Task, key: Key)
    requires Inv(w)
    ensures Inv(Do(w, Enter(t, key)))
  {
    var w' := Do(w, Enter(t, key));
    if t !in w.tasks && w' != w {
      assert key in w.locks.entries ==> Counted(w, key);
      EnterKeepsEntries(w.locks, key);
      EnterKeepsTasks(w, w', t, key);
      forall k | k in w'.locks.entries ensures Counted(w', k) { EnterKeepsCount(w, w', t, key, k); }
    }
  }

  ghost predicate EnteredAs(w: World, w': World, t: Task, key: Key) {
    && t !in w.tasks && (key in w.locks.entries ==> Counted(w, key))
    && Entered(w.locks, key).Some?
    && w'.locks == Entered(w.locks, key).value
    && w'.tasks == w.tasks[t := Waiting(key, w'.locks.entries[key])]
  }

  lemma EnterKeepsTasks(w: World, w': World, t: Task, key: Key)
    requires Inv(w) && EnteredAs(w, w', t, key)
    ensures forall s | s in w'.tasks :: Attached(w', s) && HeldIffInside(w', s)
    ensures forall h | h in w'.locks.holder :: HolderIsThere(w', h)
  {
    var e := w'.locks.entries[key];
    forall s | s in w'.tasks ensures Attached(w', s) && HeldIffInside(w', s) {
      if s != t { assert Attached(w, s) && HeldIffInside(w, s); }
      assert Holds(w, e, t) ==> HolderIsThere(w, e);
    }
    forall h | h in w'.locks.holder ensures HolderIsThere(w', h) { assert HolderIsThere(w, h); }
  }

  lemma EnterKeepsCount(w: World, w': World, t: Task, key: Key, k: Key)
    requires Inv(w) && EnteredAs(w, w', t, key) && k in w'.locks.entries
    ensures Counted(w', k)
  {
    var e := w'.locks.entries[key];
    if k != key {
      assert Counted(w, k) && EntrySound(w.locks, k) && Apart(w.locks, k, key);
      assert w'.locks.entries[k] == w.locks.entries[k] != e;
      WithinGrows(w.tasks, t, Waiting(key, e), w.locks.entries[k]);
    } else if key in w.locks.entries {
      assert t !in Within(w.tasks, e);
      WithinGrows(w.tasks, t, Waiting(key, e), e);
    } else {
      NewEntryIsUnused(w);
      WithinGrows(w.tasks, t, Waiting(key, e), e);
    }
  }

  lemma WithinGrows(tasks: map<Task, Phase>, t: Task, p: Phase, e: nat)
    requires t !in tasks
    ensures Within(tasks[t := p], e) == Within(tasks, e) + (if p.entry == e then {t} else {})
  {
  }

  lemma NewEntryIsUnused(w: World)
    requires Inv(w)
    ensures Within(w.tasks, w.locks.next) == {}
  {
    forall t | t in w.tasks ensures w.tasks[t].entry != w.locks.next {
      assert Attached(w, t) && EntrySound(w.locks, w.tasks[t].key);
    }
  }

  lemma EnterKeepsEntries(l: Locks, key: Key)
    requires EntriesSound(l) && (key in l.entries ==> l.entries[key] in l.users) && Entered(l, key).Some?
    ensures EntriesSound(Entered(l, key).value)
  {
    var l' := Entered(l, key).value;
    if key in l.entries {
      forall k | k in l'.entries ensures EntrySound(l', k) { assert EntrySound(l, k); }
      forall k: Key, m: Key ensures Apart(l', k, m) { assert Apart(l, k, m); }
    } else {
      AddedKey(l.entries, key, l.next);
      forall k | k in l'.entries ensures EntrySound(l', k) {
        if k != key { assert EntrySound(l, k); }
      }
      forall k: Key, m: Key ensures Apart(l', k, m) {
        assert Apart(l, k, m);
        assert (k in l.entries ==> EntrySound(l, k)) && (m in l.entries ==> EntrySound(l, m));
      }
    }
  }

  lemma AddedKey(entries: map<Key, nat>, key: Key, e: nat)
    requires key !in entries
    ensures |entries[key := e]| == |entries| + 1
  {
    assert entries[key := e].Keys == entries.Keys + {key};
  }

  lemma AcquireKeepsInv(w: World, t: Task)
    requires Inv(w)
    ensures Inv(Do(w, Acquire(t)))
  {
    var w' := Do(w, Acquire(t));
    if w' != w {
      var e := w.tasks[t].entry;
      forall k | k in w'.locks.entries ensures EntrySound(w'.locks, k) { assert EntrySound(w.locks, k); }
      forall k: Key, m: Key ensures Apart(w'.locks, k, m) { assert Apart(w.locks, k, m); }
      forall s | s in w'.tasks ensures Attached(w', s) && HeldIffInside(w', s) {
        assert Attached(w, s) && HeldIffInside(w, s);
      }
      forall h | h in w'.locks.holder ensures HolderIsThere(w', h) {
        if h != e { assert HolderIsThere(w, h); }
      }
      forall k | k in w'.locks.entries ensures Counted(w', k) {
        assert Counted(w, k);
        assert Within(w'.tasks, w.locks.entries[k]) == Within(w.tasks, w.locks.entries[k]);
      }
    }
  }

  ghost predicate LeftAs(w: World, w': World, t: Task) {
    && t in w.tasks && w.tasks[t].entry in w.locks.users && w.locks.users[w.tasks[t].entry] > 0
    && w'.locks == Left(w.locks, w.tasks[t].key, w.tasks[t].entry, w.tasks[t].Inside?)
    && w'.tasks == w.tasks - {t}
  }

  lemma LeaveKeepsInv(w: World, t: Task)
    requires Inv(w)
    ensures Inv(Do(w, Leave(t)))
  {
    if t in w.tasks {
      var w', p := Do(w, Leave(t)), w.tasks[t];
      assert Attached(w, t) && Counted(w, p.key);
      LeaveKeepsEntries(w.locks, p.key, p.entry, p.Inside?);
      LeaveKeepsTasks(w, w', t);
      forall k | k in w'.locks.entries ensures Counted(w', k) { LeaveKeepsCount(w, w', t, k); }
    }
  }

  /** The leaver is one of those counted. */
  lemma LeaverCounted(w: World, w': World, t: Task)
    requires Inv(w) && LeftAs(w, w', t)
    ensures Attached(w, t) && Counted(w, w.tasks[t].key)
    ensures Within(w'.tasks, w.tasks[t].entry) == Within(w.tasks, w.tasks[t].entry) - {t}
    ensures |Within(w'.tasks, w.tasks[t].entry)| == w.locks.users[w.tasks[t].entry] - 1
  {
    var e := w.tasks[t].entry;
    assert Attached(w, t) && Counted(w, w.tasks[t].key);
    assert t in Within(w.tasks, e);
    assert Within(w'.tasks, e) == Within(w.tasks, e) - {t};
  }

  lemma LeaveKeepsTasks(w: World, w': World, t: Task)
    requires Inv(w) && LeftAs(w, w', t)
    ensures forall s | s in w'.tasks :: Attached(w', s) && HeldIffInside(w', s)
    ensures forall h | h in w'.locks.holder :: HolderIsThere(w', h)
  {
    var p := w.tasks[t];
    LeaverCounted(w, w', t);
    assert HeldIffInside(w, t);
    forall s | s in w'.tasks ensures Attached(w', s) && HeldIffInside(w', s) {
      assert Attached(w, s) && HeldIffInside(w, s);
      if w.tasks[s].key == p.key { assert s in Within(w'.tasks, p.entry); }
    }
    forall h | h in w'.locks.holder ensures HolderIsThere(w', h) { assert HolderIsThere(w, h); }
  }

  lemma LeaveKeepsCount(w: World, w': World, t: Task, k: Key)
    requires Inv(w) && LeftAs(w, w', t) && k in w'.locks.entries
    ensures Counted(w', k)
  {
    var p := w.tasks[t];
    LeaverCounted(w, w', t);
    assert Counted(w, k) && Apart(w.locks, k, p.key);
    if k != p.key { assert Within(w'.tasks, w.locks.entries[k]) == Within(w.tasks, w.locks.entries[k]); }
  }

  lemma LeaveKeepsEntries(l: Locks, key: Key, entry: nat, acquired: bool)
    requires EntriesSound(l) && entry in l.users && l.users[entry] > 0
    ensures EntriesSound(Left(l, key, entry, acquired))
  {
    var l' := Left(l, key, entry, acquired);
    if l'.entries != l.entries { assert l.entries.Keys == l'.entries.Keys + {key}; }
    forall k | k in l'.entries ensures EntrySound(l', k) { assert EntrySound(l, k); }
    forall k: Key, m: Key ensures Apart(l', k, m) { assert Apart(l, k, m); }
  }

  function Run(w: World, steps: seq<Step>): (r: World)
    requires Inv(w)
    ensures Inv(r)
    decreases |steps|
  {
    if steps == [] then w else
      StepKeepsInv(w, steps[0]);
      Run(Do(w, steps[0]), steps[1..])
  }

  lemma StepKeepsInv(w: World, step: Step)
    requires Inv(w)
    ensures Inv(Do(w, step))
  {
    match step
    case Enter(t, key) => EnterKeepsInv(w, t, key);
    case Acquire(t) => AcquireKeepsInv(w, t);
    case Leave(t) => LeaveKeepsInv(w, t);
  }

  function Start(max: nat): World {
    World(Locks(max, map[], map[], map[], 0), map[])
  }

  /** Over all interleavings: one task per key at a time, `users` is the number of tasks inside
      `hold`, all of them on the one entry in the dictionary, and the dictionary holds exactly
      the keys in use, never more than `max`. */
  lemma LocksAreSafe(max: nat, steps: seq<Step>)
    requires max >= 1
    ensures Inv(Start(max))
    ensures Safe(Run(Start(max), steps))
    ensures |Run(Start(max), steps).locks.entries| <= max
  {
    RunKeepsMax(Start(max), steps);
    InvIsSafe(Run(Start(max), steps));
  }

  ghost predicate Safe(w: World) {
    && (forall s, t | s in w.tasks && t in w.tasks && w.tasks[s].Inside? && w.tasks[t].Inside?
                      && w.tasks[s].key == w.tasks[t].key :: s == t)
    && (forall t | t in w.tasks :: Attached(w, t))
    && (forall k | k in w.locks.entries :: Counted(w, k) && Within(w.tasks, w.locks.entries[k]) == Users(w.tasks, k))
    && w.locks.entries.Keys == InUse(w.tasks)
  }

  lemma InvIsSafe(w: World)
    requires Inv(w)
    ensures Safe(w)
  {
    forall s, t | s in w.tasks && t in w.tasks && w.tasks[s].Inside? && w.tasks[t].Inside?
                  && w.tasks[s].key == w.tasks[t].key
      ensures s == t
    {
      assert Attached(w, s) && Attached(w, t) && HeldIffInside(w, s) && HeldIffInside(w, t);
    }
    forall k | k in w.locks.entries
      ensures Within(w.tasks, w.locks.entries[k]) == Users(w.tasks, k) && k in InUse(w.tasks)
    {
      assert Counted(w, k);
      forall t | t in w.tasks ensures w.tasks[t].entry == w.locks.entries[k] <==> w.tasks[t].key == k {
        assert Attached(w, t) && Apart(w.locks, k, w.tasks[t].key);
      }
      var t :| t in Within(w.tasks, w.locks.entries[k]);
    }
    forall k | k in InUse(w.tasks) ensures k in w.locks.entries {
      var t :| t in w.tasks && w.tasks[t].key == k;
      assert Attached(w, t);
    }
  }

  function Users(tasks: map<Task, Phase>, key: Key): set<Task> {
    set t | t in tasks && tasks[t].key == key
  }

  function InUse(tasks: map<Task, Phase>): set<Key> {
    set t | t in tasks :: tasks[t].key
  }

  lemma {:induction false} RunKeepsMax(w: World, steps: seq<Step>)
    requires Inv(w)
    ensures Run(w, steps).locks.max == w.locks.max
    decreases |steps|
  {
    if steps != [] {
      StepKeepsInv(w, steps[0]);
      StepKeepsMax(w, steps[0]);
      RunKeepsMax(Do(w, steps[0]), steps[1..]);
    }
  }

  lemma StepKeepsMax(w: World, step: Step)
    requires Inv(w)
    ensures Do(w, step).locks.max == w.locks.max
  {
    if step.Leave? && step.task in w.tasks { assert Attached(w, step.task) && Counted(w, w.tasks[step.task].key); }
    if step.Enter? { assert step.key in w.locks.entries ==> Counted(w, step.key); }
  }

  /** A newcomer is refused exactly when `max` other keys are in use. */
  lemma RefusedOnlyWhenFull(w: World, t: Task, key: Key)
    requires Inv(w) && t !in w.tasks
    ensures t !in Do(w, Enter(t, key)).tasks <==> key !in InUse(w.tasks) && |InUse(w.tasks)| == w.locks.max
  {
    InvIsSafe(w);
    assert key in w.locks.entries ==> Counted(w, key);
  }

  /** A waiting task gets the lock exactly when no task is inside for its key. */
  lemma AcquiredOnlyWhenFree(w: World, t: Task)
    requires Inv(w) && t in w.tasks && w.tasks[t].Waiting?
    ensures t in Do(w, Acquire(t)).tasks
    ensures Do(w, Acquire(t)).tasks[t].Inside? <==>
              forall s | s in w.tasks && w.tasks[s].key == w.tasks[t].key :: w.tasks[s].Waiting?
  {
    var e := w.tasks[t].entry;
    assert Attached(w, t);
    if e in w.locks.holder {
      var h := w.locks.holder[e];
      assert HolderIsThere(w, e) && HeldIffInside(w, h) && Attached(w, h);
      assert Apart(w.locks, w.tasks[h].key, w.tasks[t].key);
    } else {
      forall s | s in w.tasks && w.tasks[s].key == w.tasks[t].key ensures w.tasks[s].Waiting? {
        assert Attached(w, s) && HeldIffInside(w, s);
      }
    }
  }

  /** Every step of a run is taken, in order. */
  lemma {:induction false} RunTakesEveryStep(w: World, steps: seq<Step>, step: Step)
    requires Inv(w)
    ensures Run(w, []) == w
    ensures Run(w, steps + [step]) == Do(Run(w, steps), step)
    decreases |steps|
  {
    if steps == [] {
      assert ([step])[1..] == [] && steps + [step] == [step];
      StepKeepsInv(w, step);
    } else {
      assert (steps + [step])[0] == steps[0] && (steps + [step])[1..] == steps[1..] + [step];
      StepKeepsInv(w, steps[0]);
      RunTakesEveryStep(Do(w, steps[0]), steps[1..], step);
    }
  }

  /** While a task stays inside `hold`, its key keeps the same entry whatever others do. */
  lemma EntryIsNeverReplaced(w: World, step: Step, t: Task)
    requires Inv(w) && t in w.tasks && t in Do(w, step).tasks
    ensures Do(w, step).tasks[t].key == w.tasks[t].key && Do(w, step).tasks[t].entry == w.tasks[t].entry
    ensures Attached(w, t) && Attached(Do(w, step), t)
  {
    StepKeepsInv(w, step);
    assert Attached(w, t) && Attached(Do(w, step), t);
    match step
    case Enter(s, key) => assert key in w.locks.entries ==> Counted(w, key);
    case Acquire(s) =>
    case Leave(s) => if s in w.tasks { assert Attached(w, s) && Counted(w, w.tasks[s].key); }
  }

  /** What a step may do to the tasks. */
  lemma PhasesAfter(w: World, step: Step)
    requires Inv(w)
    ensures forall u | u in Do(w, step).tasks && u != step.task :: u in w.tasks && w.tasks[u] == Do(w, step).tasks[u]
    ensures (step.Enter? && step.task in Do(w, step).tasks) ==>
              if step.task in w.tasks then Do(w, step).tasks[step.task] == w.tasks[step.task]
              else Do(w, step).tasks[step.task].Waiting?
    ensures (step.Acquire? && step.task in Do(w, step).tasks) ==>
              step.task in w.tasks && Do(w, step).tasks[step.task].key == w.tasks[step.task].key
    ensures step.Leave? ==> Do(w, step).tasks == w.tasks - {step.task}
  {
    match step
    case Enter(s, key) => assert key in w.locks.entries ==> Counted(w, key);
    case Acquire(s) =>
    case Leave(s) => if s in w.tasks { assert Attached(w, s) && Counted(w, w.tasks[s].key); }
  }
}
