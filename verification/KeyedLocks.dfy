/**
 * One lock per key, handed out from a registry of weak references that is swept
 * now and then. Tasks look a lock up, wait for it, hold it and drop it in any
 * order; a lock is alive while some task waits for it or holds it.
 */
module KeyedLocks {
  import opened Types

  const CLEANUP_INTERVAL: nat := 64

  type LockId = nat
  type TaskId = nat

  function Max(a: nat, b: nat): (r: nat) {
    if a < b then b else a
  }

  /** The registry's two fields. */
  datatype Table<K> = Table(locks: map<K, LockId>, untilCleanup: nat)

  function Upgrade<K>(table: Table<K>, key: K, live: set<LockId>): (r: Option<LockId>) {
    if key in table.locks && table.locks[key] in live then Some(table.locks[key]) else None
  }

  /** The entries a sweep leaves when it finds the locks `alive`. */
  function Swept<K>(locks: map<K, LockId>, alive: set<LockId>): (r: map<K, LockId>) {
    map k | k in locks && locks[k] in alive :: locks[k]
  }

  /** The table right before an insertion, swept when the countdown has run out. */
  function Cleaned<K>(table: Table<K>, alive: set<LockId>): (r: Table<K>)
    ensures r.untilCleanup > 0
  {
    if table.untilCleanup > 0 then table else
    var kept := Swept(table.locks, alive);
    Table(kept, Max(|kept|, CLEANUP_INTERVAL))
  }

  function Inserted<K>(table: Table<K>, key: K, lock: LockId, alive: set<LockId>): (r: Table<K>) {
    var ready := Cleaned(table, alive);
    Table(ready.locks[key := lock], ready.untilCleanup - 1)
  }

  /** The registry behind its read-write lock. */
  class Registry<K(==)> {
    var locks: map<K, LockId>
    var insertionsUntilCleanup: nat

    ghost function Contents(): (r: Table<K>)
      reads this
    {
      Table(locks, insertionsUntilCleanup)
    }

    constructor ()
      ensures Contents() == Table(map[], CLEANUP_INTERVAL)
    {
      locks, insertionsUntilCleanup := map[], CLEANUP_INTERVAL;
    }

    /** The section under the write lock: `live` locks can be upgraded, a sweep sees `alive`. */
    method Obtain(key: K, live: set<LockId>, alive: set<LockId>, newLock: LockId) returns (lock: LockId)
      modifies this
      ensures
        match Upgrade(old(Contents()), key, live)
        case Some(existing) => lock == existing && Contents() == old(Contents())
        case None => lock == newLock && Contents() == Inserted(old(Contents()), key, newLock, alive)
      ensures
        if key in old(locks) && old(locks)[key] in live
        then lock == old(locks)[key] && locks == old(locks) && insertionsUntilCleanup == old(insertionsUntilCleanup)
        else
          && lock == newLock && key in locks && locks[key] == newLock
          && (forall k | k != key ::
                k in locks <==> k in old(locks) && (old(insertionsUntilCleanup) > 0 || old(locks)[k] in alive))
          && (forall k | k != key && k in locks :: locks[k] == old(locks)[k])
          && (old(insertionsUntilCleanup) > 0 ==> insertionsUntilCleanup == old(insertionsUntilCleanup) - 1)
          && (old(insertionsUntilCleanup) == 0 ==> CLEANUP_INTERVAL - 1 <= insertionsUntilCleanup)
    {
      if key in locks && locks[key] in live {
        return locks[key];
      }
      if insertionsUntilCleanup == 0 {
        locks := Swept(locks, alive);
        insertionsUntilCleanup := Max(|locks|, CLEANUP_INTERVAL);
      }
      locks := locks[key := newLock];
      insertionsUntilCleanup := insertionsUntilCleanup - 1;
      lock := newLock;
    }
  }

  datatype Task<K> =
    | Missed(key: K)
    | Waiting(key: K, lock: LockId)
    | Holding(key: K, lock: LockId)

  /** `alive` is how many locks the last sweep found alive, zero before the first one. */
  datatype World<K> = World(
    table: Table<K>,
    tasks: map<TaskId, Task<K>>,
    locked: set<LockId>,
    next: LockId,
    alive: nat)

  /** Locks some task still references. */
  function Live<K>(tasks: map<TaskId, Task<K>>): (r: set<LockId>) {
    set t | t in tasks && !tasks[t].Missed? :: tasks[t].lock
  }

  datatype Step<K> =
    | LookUp(task: TaskId, key: K)
    | Obtain(task: TaskId, lingering: set<LockId>)
    | Acquire(task: TaskId)
    | Abandon(task: TaskId)
    | Release(task: TaskId)

  predicate Enabled<K>(w: World<K>, step: Step<K>) {
    match step
    case LookUp(t, _) => t !in w.tasks
    case Obtain(t, lingering) => t in w.tasks && w.tasks[t].Missed? && lingering <= w.table.locks.Values
    case Acquire(t) => t in w.tasks && w.tasks[t].Waiting? && w.tasks[t].lock !in w.locked
    case Abandon(t) => t in w.tasks && !w.tasks[t].Holding?
    case Release(t) => t in w.tasks && w.tasks[t].Holding?
  }

  function Next<K>(w: World<K>, step: Step<K>): (r: World<K>)
    requires Enabled(w, step)
  {
    match step
    case LookUp(t, key) =>
      var found := Upgrade(w.table, key, Live(w.tasks));
      w.(tasks := w.tasks[t := if found.Some? then Waiting(key, found.value) else Missed(key)])
    case Obtain(t, lingering) =>
      var key := w.tasks[t].key;
      var live := Live(w.tasks);
      var found := Upgrade(w.table, key, live);
      if found.Some? then w.(tasks := w.tasks[t := Waiting(key, found.value)]) else
      // The sweep may still see locks whose last reference goes away while it runs.
      var alive := live + lingering;
      World(Inserted(w.table, key, w.next, alive), w.tasks[t := Waiting(key, w.next)], w.locked, w.next + 1,
            if w.table.untilCleanup == 0 then |alive| else w.alive)
    case Acquire(t) =>
      w.(tasks := w.tasks[t := Holding(w.tasks[t].key, w.tasks[t].lock)], locked := w.locked + {w.tasks[t].lock})
    case Abandon(t) => w.(tasks := w.tasks - {t})
    case Release(t) => w.(tasks := w.tasks - {t}, locked := w.locked - {w.tasks[t].lock})
  }

  predicate Valid<K>(w: World<K>, steps: seq<Step<K>>)
    decreases |steps|
  {
    steps == [] || (Enabled(w, steps[0]) && Valid(Next(w, steps[0]), steps[1..]))
  }

  function After<K>(w: World<K>, steps: seq<Step<K>>): (r: World<K>)
    requires Valid(w, steps)
    decreases |steps|
  {
    if steps == [] then w else After(Next(w, steps[0]), steps[1..])
  }

  function Start<K>(): (r: World<K>) {
    World(Table(map[], CLEANUP_INTERVAL), map[], {}, 0, 0)
  }

  /** A task's lock is the one registered for its key. */
  ghost predicate Registered<K>(w: World<K>) {
    forall t | t in w.tasks && !w.tasks[t].Missed? ::
      w.tasks[t].key in w.table.locks && w.table.locks[w.tasks[t].key] == w.tasks[t].lock
  }

  /** No two keys share a lock, and lock numbers are used once. */
  ghost predicate Injective<K>(table: Table<K>, next: LockId) {
    && (forall k | k in table.locks :: table.locks[k] < next)
    && (forall k, l | k in table.locks && l in table.locks && table.locks[k] == table.locks[l] :: k == l)
  }

  /** A locked mutex has exactly one holder. */
  ghost predicate Exclusive<K>(w: World<K>) {
    && (forall t | t in w.tasks && w.tasks[t].Holding? :: w.tasks[t].lock in w.locked)
    && (forall l | l in w.locked :: exists t | t in w.tasks :: w.tasks[t].Holding? && w.tasks[t].lock == l)
    && (forall t, u | t in w.tasks && u in w.tasks && w.tasks[t].Holding? && w.tasks[u].Holding?
                      && w.tasks[t].lock == w.tasks[u].lock :: t == u)
  }

  ghost predicate Inv<K>(w: World<K>) {
    && Registered(w) && Injective(w.table, w.next) && Exclusive(w)
    && |w.table.locks| + w.table.untilCleanup <= w.alive + Max(w.alive, CLEANUP_INTERVAL)
  }

  /** A sweep drops no lock that is still in use. */
  lemma SweepKeeps<K>(w: World<K>, alive: set<LockId>)
    requires Registered(w) && Injective(w.table, w.next) && Live(w.tasks) <= alive
    ensures
      var swept := w.(table := Cleaned(w.table, alive));
      Registered(swept) && Injective(swept.table, w.next)
  {
    forall t | t in w.tasks && !w.tasks[t].Missed?
      ensures w.tasks[t].lock in alive
    {
      assert w.tasks[t].lock in Live(w.tasks);
    }
  }

  /** No two keys share a lock, so a sweep keeps at most one entry for each lock that is alive. */
  lemma {:induction false} SweptSize<K>(locks: map<K, LockId>, alive: set<LockId>)
    requires forall k, l | k in locks && l in locks && locks[k] == locks[l] :: k == l
    ensures |Swept(locks, alive)| <= |alive|
    decreases |alive|
  {
    var swept := Swept(locks, alive);
    if swept.Keys != {} {
      var k :| k in swept.Keys;
      var rest := alive - {locks[k]};
      SweptSize(locks, rest);
      assert Swept(locks, rest) == swept - {k};
      assert (swept - {k}).Keys == swept.Keys - {k};
      assert |swept| == |swept.Keys| && |swept - {k}| == |(swept - {k}).Keys|;
      assert |swept.Keys - {k}| == |swept.Keys| - 1;
    } else {
      assert |swept| == |swept.Keys|;
    }
  }

  lemma SizeAfterInsert<K>(locks: map<K, LockId>, key: K, lock: LockId)
    ensures |locks[key := lock]| <= |locks| + 1
  {
    assert locks[key := lock].Keys == locks.Keys + {key};
    if key in locks {
      assert locks.Keys + {key} == locks.Keys;
    }
    assert |locks[key := lock]| == |locks[key := lock].Keys| && |locks| == |locks.Keys|;
  }

  /** A new lock under a key nobody uses. */
  lemma InsertKeeps<K>(w: World<K>, key: K, alive: set<LockId>)
    requires Registered(w) && Injective(w.table, w.next) && Live(w.tasks) <= alive
    requires Upgrade(w.table, key, Live(w.tasks)).None?
    ensures
      var inserted := w.(table := Inserted(w.table, key, w.next, alive));
      Registered(inserted) && Injective(inserted.table, w.next + 1) && inserted.table.locks[key] == w.next
  {
    SweepKeeps(w, alive);
    forall t | t in w.tasks && !w.tasks[t].Missed?
      ensures w.tasks[t].key != key
    {
      assert w.tasks[t].lock in Live(w.tasks);
    }
  }

  lemma ObtainKeeps<K>(w: World<K>, t: TaskId, lingering: set<LockId>)
    requires Inv(w) && Enabled(w, Obtain(t, lingering)) && Upgrade(w.table, w.tasks[t].key, Live(w.tasks)).None?
    ensures Inv(Next(w, Obtain(t, lingering)))
  {
    var w' := Next(w, Obtain(t, lingering));
    var alive := Live(w.tasks) + lingering;
    InsertKeeps(w, w.tasks[t].key, alive);
    SizeAfterInsert(Cleaned(w.table, alive).locks, w.tasks[t].key, w.next);
    SweptSize(w.table.locks, alive);
    assert Registered(w');
    forall l | l in w'.locked
      ensures exists u | u in w'.tasks :: w'.tasks[u].Holding? && w'.tasks[u].lock == l
    {
      var u :| u in w.tasks && w.tasks[u].Holding? && w.tasks[u].lock == l;
      assert w'.tasks[u] == w.tasks[u];
    }
  }

  lemma InvStep<K>(w: World<K>, step: Step<K>)
    requires Inv(w) && Enabled(w, step)
    ensures Inv(Next(w, step))
  {
    var w' := Next(w, step);
    if step.Obtain? && Upgrade(w.table, w.tasks[step.task].key, Live(w.tasks)).None? {
      ObtainKeeps(w, step.task, step.lingering);
    } else {
      forall l | l in w'.locked
        ensures exists u | u in w'.tasks :: w'.tasks[u].Holding? && w'.tasks[u].lock == l
      {
        if step.Acquire? && l == w.tasks[step.task].lock {
          assert w'.tasks[step.task].Holding?;
        } else {
          var u :| u in w.tasks && w.tasks[u].Holding? && w.tasks[u].lock == l;
          assert w'.tasks[u] == w.tasks[u];
        }
      }
    }
  }

  lemma {:induction false} InvRun<K>(w: World<K>, steps: seq<Step<K>>)
    requires Inv(w) && Valid(w, steps)
    ensures Inv(After(w, steps))
    decreases |steps|
  {
    if steps != [] {
      InvStep(w, steps[0]);
      InvRun(Next(w, steps[0]), steps[1..]);
    }
  }

  lemma Reachable<K>(steps: seq<Step<K>>)
    requires Valid(Start(), steps)
    ensures Inv(After(Start(), steps))
  {
    assert Inv(Start<K>());
    InvRun(Start(), steps);
  }

  /** Two tasks never hold the guard of one key. */
  lemma MutualExclusion<K>(steps: seq<Step<K>>, t: TaskId, u: TaskId)
    requires Valid(Start(), steps)
    requires t in After(Start(), steps).tasks && u in After(Start(), steps).tasks
    requires After(Start(), steps).tasks[t].Holding? && After(Start(), steps).tasks[u].Holding?
    requires After(Start(), steps).tasks[t].key == After(Start(), steps).tasks[u].key
    ensures t == u
  {
    Reachable(steps);
  }

  /** A waiting task can proceed exactly when nobody holds its key: other keys never block it. */
  lemma BlockedOnlyByOwnKey<K>(steps: seq<Step<K>>, t: TaskId)
    requires Valid(Start(), steps)
    requires t in After(Start(), steps).tasks && After(Start(), steps).tasks[t].Waiting?
    ensures
      var w := After(Start(), steps);
      Enabled(w, Acquire(t)) <==> !exists u | u in w.tasks :: w.tasks[u].Holding? && w.tasks[u].key == w.tasks[t].key
  {
    Reachable(steps);
    var w := After(Start(), steps);
    if !Enabled(w, Acquire(t)) {
      var u :| u in w.tasks && w.tasks[u].Holding? && w.tasks[u].lock == w.tasks[t].lock;
      assert w.table.locks[w.tasks[u].key] == w.table.locks[w.tasks[t].key];
    }
  }

  /** The registry stays within twice the larger of the interval and the number of locks the last sweep found alive. */
  lemma RegistryBounded<K>(steps: seq<Step<K>>)
    requires Valid(Start(), steps)
    ensures
      var w := After(Start(), steps);
      |w.table.locks| + w.table.untilCleanup <= 2 * Max(CLEANUP_INTERVAL, w.alive)
  {
    Reachable(steps);
  }
}
