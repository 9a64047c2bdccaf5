/**
 Deadlock freedom needs its two promises from callers.  Wherever a caller breaks one of them, in any
 reachable state, the run can go on to a circular wait that the detector never reports.
 */
module LockDiscipline {
  import opened BitPacking
  import opened LockOrder
  import opened Lockdep
  import opened LockProtocol

  // ---------- going on from a reachable state ----------

  /** `start` is reachable, and some steps lead on from it to `s`. */
  ghost predicate Leads(d: Discipline, start: State, s: State) {
    && Reachable(d, start)
    && exists states, actions :: Chain(d, states, actions) && states[0] == start && states[|states| - 1] == s
  }

  ghost predicate Chain(d: Discipline, states: seq<State>, actions: seq<Action>) {
    && |states| == |actions| + 1
    && forall i | 0 <= i < |actions| ::
         Enabled(d, states[i], actions[i]) && states[i + 1] == Apply(d, states[i], actions[i])
  }

  lemma StartHere(d: Discipline, s: State)
    requires Reachable(d, s)
    ensures Leads(d, s, s)
  {
    assert Chain(d, [s], []) && [s][|[s]| - 1] == s;
  }

  /** One more step. */
  lemma GoOn(d: Discipline, start: State, s: State, a: Action, s': State)
    requires Leads(d, start, s) && Enabled(d, s, a) && Apply(d, s, a) == s'
    ensures Leads(d, start, s')
  {
    var states, actions :| Chain(d, states, actions) && states[0] == start && states[|states| - 1] == s;
    var states', actions' := states + [s'], actions + [a];
    forall i | 0 <= i < |actions'|
      ensures Enabled(d, states'[i], actions'[i]) && states'[i + 1] == Apply(d, states'[i], actions'[i])
    {
      if i < |actions| {
        assert states'[i] == states[i] && states'[i + 1] == states[i + 1] && actions'[i] == actions[i];
      }
    }
    assert Chain(d, states', actions') && states'[0] == start;
  }

  lemma {:induction false} ChainReachable(d: Discipline, states: seq<State>, actions: seq<Action>, i: nat)
    requires Chain(d, states, actions) && Reachable(d, states[0]) && i < |states|
    ensures Reachable(d, states[i])
  {
    if i > 0 {
      ChainReachable(d, states, actions, i - 1);
      Go(d, states[i - 1], actions[i - 1], states[i]);
    }
  }

  lemma LeadsReachable(d: Discipline, start: State, s: State)
    requires Leads(d, start, s)
    ensures Reachable(d, s)
  {
    var states, actions :| Chain(d, states, actions) && states[0] == start && states[|states| - 1] == s;
    ChainReachable(d, states, actions, |states| - 1);
  }

  lemma LeadsInv(d: Discipline, start: State, s: State)
    requires Leads(d, start, s)
    ensures Inv(s)
  {
    LeadsReachable(d, start, s);
    ReachableInv(d, s);
  }

  lemma LeadsAcyclic(d: Discipline, start: State, s: State)
    requires Leads(d, start, s) && s.Running?
    ensures Acyclic(s.tables.order)
  {
    LeadsInv(d, start, s);
  }

  // ---------- calls that run to completion or block ----------

  /** An uncontended lock(). */
  ghost function AfterLock(s: State, t: Thread, m: Mutex): (s': State)
    requires s.Running? && m in s.ids
  {
    At(Take(s.(tables := Locked(Ordered(s.tables, t, s.ids[m]), t, s.ids[m])), t, m), t, Idle)
  }

  lemma LockRuns(d: Discipline, start: State, s: State, t: Thread, m: Mutex)
    requires s.Running? && Leads(d, start, s) && PcOf(s, t).Idle? && m in s.ids && m !in s.owners
    requires !WouldCycle(s.tables, t, s.ids[m])
    ensures Leads(d, start, AfterLock(s, t, m))
  {
    var s1 := At(s.(tables := Ordered(s.tables, t, s.ids[m])), t, Trying(m));
    var s2 := At(Take(s1, t, m), t, Acquired(m));
    GoOn(d, start, s, CheckOrder(t, m), s1);
    GoOn(d, start, s1, FastAttempt(t), s2);
    assert s2.(pcs := s2.pcs[t := Idle]).pcs == s.pcs[t := Idle];
    GoOn(d, start, s2, RecordHeld(t), AfterLock(s, t, m));
  }

  /** A lock() on a mutex that somebody owns. */
  ghost function AfterBlock(s: State, t: Thread, m: Mutex): (s': State)
    requires s.Running? && m in s.ids
  {
    At(s.(tables := Ordered(s.tables, t, s.ids[m])), t, Blocked(m))
  }

  lemma LockBlocks(d: Discipline, start: State, s: State, t: Thread, m: Mutex)
    requires s.Running? && Leads(d, start, s) && PcOf(s, t).Idle? && m in s.ids && m in s.owners && s.owners[m] != t
    requires !WouldCycle(s.tables, t, s.ids[m])
    ensures Leads(d, start, AfterBlock(s, t, m))
  {
    var s1 := At(s.(tables := Ordered(s.tables, t, s.ids[m])), t, Trying(m));
    GoOn(d, start, s, CheckOrder(t, m), s1);
    assert AfterBlock(s, t, m).pcs == s1.pcs[t := Blocked(m)];
    GoOn(d, start, s1, FastAttempt(t), AfterBlock(s, t, m));
  }

  lemma NoLocksNoCycle(s: State, t: Thread, id: int)
    requires s.Running? && HeldIds(s, t) == {} && Acyclic(s.tables.order)
    ensures !WouldCycle(s.tables, t, id) && Ordered(s.tables, t, id).order == s.tables.order
  {
    assert s.tables.order + EdgesInto({}, id) == s.tables.order;
  }

  // ---------- unlocking ----------

  ghost function AfterUnlock(s: State, t: Thread, m: Mutex): (s': State)
    requires s.Running? && m in s.ids
  {
    At(Drop(s.(tables := Unlocked(s.tables, t, s.ids[m])), m), t, Idle)
  }

  lemma UnlockRuns(d: Discipline, start: State, s: State, t: Thread, m: Mutex)
    requires s.Running? && Leads(d, start, s) && PcOf(s, t).Idle? && m in s.ids && Owns(s, t, m)
    ensures Leads(d, start, AfterUnlock(s, t, m))
  {
    var s1 := At(s.(tables := Unlocked(s.tables, t, s.ids[m])), t, Releasing(m));
    GoOn(d, start, s, UnrecordHeld(t, m), s1);
    assert s1.pcs[t := Idle] == s.pcs[t := Idle];
    GoOn(d, start, s1, Release(t), AfterUnlock(s, t, m));
  }

  /** The rest of a try_lock() that has succeeded, and an unlock() of the same mutex. */
  lemma TryAndUnlockRuns(d: Discipline, start: State, s: State, t: Thread, m: Mutex)
    requires s.Running? && Leads(d, start, s) && PcOf(s, t) == Acquired(m) && m in s.ids && Owns(s, t, m)
    ensures Leads(d, start, AfterUnlock(s, t, m))
  {
    var s1 := At(s.(tables := Locked(s.tables, t, s.ids[m])), t, Idle);
    GoOn(d, start, s, RecordHeld(t), s1);
    UnlockRuns(d, start, s1, t, m);
    assert HeldIds(s1, t) - {s.ids[m]} == HeldIds(s, t) - {s.ids[m]};
    assert AfterUnlock(s1, t, m) == AfterUnlock(s, t, m);
  }

  /** A thread between calls can unlock until nothing is recorded as held, and keep a mutex that it owns
      without being recorded as its holder. */
  lemma {:induction false} UnlockTheRest(d: Discipline, start: State, s: State, t: Thread, kept: Mutex)
    returns (s': State)
    requires s.Running? && Leads(d, start, s) && PcOf(s, t).Idle?
    requires kept in s.ids && Owns(s, t, kept) && s.ids[kept] !in HeldIds(s, t)
    ensures s'.Running? && Leads(d, start, s') && PcOf(s', t).Idle? && HeldIds(s', t) == {} && Owns(s', t, kept)
    ensures s'.ids == s.ids && s'.tables.refs == s.tables.refs && s'.tables.names == s.tables.names
    decreases |HeldIds(s, t)|
  {
    var held := HeldIds(s, t);
    NonEmptySet(held);
    if h :| h in held {
      LeadsInv(d, start, s);
      assert ThreadInv(s, t);
      var m :| Anchors(s, t, m) && s.ids[m] == h;
      UnlockRuns(d, start, s, t, m);
      var s1 := AfterUnlock(s, t, m);
      assert HeldIds(s1, t) == held - {h};
      s' := UnlockTheRest(d, start, s1, t, kept);
    } else {
      s' := s;
    }
  }

  lemma {:induction false} Bound(ns: set<nat>) returns (b: nat)
    ensures forall n | n in ns :: n < b
    decreases |ns|
  {
    if x :| x in ns {
      var c := Bound(ns - {x});
      b := if c <= x then x + 1 else c;
      assert forall n | n in ns :: n == x || n in ns - {x};
    } else {
      assert ns == {};
      b := 0;
    }
  }

  /** There is always a thread that has not used the library yet. */
  lemma NewThread(s: State, t: Thread) returns (u: Thread)
    requires s.Running?
    ensures u != t && PcOf(s, u).Idle? && HeldIds(s, u) == {}
  {
    u := Bound(s.pcs.Keys + s.tables.held.Keys + {t});
    assert u !in s.pcs.Keys + s.tables.held.Keys + {t};
  }

  /** And a mutex that has not been constructed yet. */
  lemma NewMutex(s: State) returns (m: Mutex)
    requires s.Running?
    ensures m !in s.ids && m !in s.owners
  {
    m := Bound(s.ids.Keys + s.owners.Keys);
    assert m !in s.ids.Keys + s.owners.Keys;
  }

  // ---------- a wait that gives up a lock which another owned lock does not lead to ----------

  ghost predicate DeadlockWith(d: Discipline, start: State, t: Thread, u: Thread) {
    exists s :: Leads(d, start, s) && CircularWait(s, {t, u})
  }

  /** Some steps lead on from `start` to a circular wait of `t` and another thread. */
  ghost predicate CanDeadlock(d: Discipline, start: State, t: Thread) {
    exists u :: u != t && DeadlockWith(d, start, t, u)
  }

  /** A thread with one lock in hand is refused another exactly when that one leads back. */
  lemma SecondLock(s: State, u: Thread, h: int, id: int)
    requires s.Running? && HeldIds(s, u) == {h} && Acyclic(s.tables.order)
    requires h != id && !Reaches(s.tables.order, id, h)
    ensures !WouldCycle(s.tables, u, id)
  {
    CycleExactly(s.tables.order, {h}, id);
  }

  /** The waiter sleeps, and no recorded path leads from another lock it owns to the one it gave up: a
      new thread takes that one and blocks on the other; the waiter wakes and cannot get its lock back. */
  lemma SleeperCanDeadlock(d: Discipline, start: State, s: State, t: Thread, m: Mutex, other: Mutex)
    requires s.Running? && Leads(d, start, s) && PcOf(s, t) == Sleeping(m) && m in s.ids && m !in s.owners
    requires Owns(s, t, other) && other in s.ids && s.ids[other] != s.ids[m]
    requires !Reaches(s.tables.order, s.ids[other], s.ids[m])
    ensures CanDeadlock(d, start, t)
  {
    LeadsAcyclic(d, start, s);
    var u := NewThread(s, t);
    NoLocksNoCycle(s, u, s.ids[m]);
    LockRuns(d, start, s, u, m);
    var s1 := AfterLock(s, u, m);
    assert HeldIds(s1, u) == {s.ids[m]};
    SecondLock(s1, u, s.ids[m], s.ids[other]);
    WaiterMeetsTaker(d, start, s1, t, u, m, other);
  }

  /** From every reachable state: a condition wait can end in a circular wait if the thread owns a lock
      from which no recorded path leads to the one it gives up. */
  lemma UnorderedWaitCanDeadlock(d: Discipline, s: State, t: Thread, m: Mutex, other: Mutex)
    requires Reachable(d, s) && Enabled(d, s, Wait(t, m))
    requires Owns(s, t, other) && other in s.ids && s.ids[other] != s.ids[m]
    requires !Reaches(s.tables.order, s.ids[other], s.ids[m])
    ensures CanDeadlock(d, Apply(d, s, Wait(t, m)), t)
  {
    var s1 := Apply(d, s, Wait(t, m));
    Go(d, s, Wait(t, m), s1);
    StartHere(d, s1);
    SleeperCanDeadlock(d, s1, s1, t, m, other);
  }

  lemma WaiterMeetsTaker(d: Discipline, start: State, s: State, t: Thread, u: Thread, m: Mutex, other: Mutex)
    requires s.Running? && Leads(d, start, s) && t != u && PcOf(s, t) == Sleeping(m) && PcOf(s, u).Idle?
    requires Owns(s, u, m) && Owns(s, t, other) && other in s.ids && !WouldCycle(s.tables, u, s.ids[other])
    ensures CanDeadlock(d, start, t)
  {
    LockBlocks(d, start, s, u, other);
    var s1 := AfterBlock(s, u, other);
    var s2 := At(s1, t, Regaining(m));
    GoOn(d, start, s1, Wake(t), s2);
    assert BlockedOn(s2, t, m) && BlockedOn(s2, u, other);
    assert CircularWait(s2, {t, u});
    assert DeadlockWith(d, start, t, u);
  }

  // ---------- a try_lock that succeeds on a name already held ----------

  /** Two threads, one owning an unrecorded mutex and the other a new one, block on each other. */
  lemma UnrecordedOwnerCanDeadlock(d: Discipline, start: State, s: State, t: Thread, m: Mutex, name: Name, id: int)
    requires s.Running? && Leads(d, start, s) && PcOf(s, t).Idle? && HeldIds(s, t) == {} && m in s.ids && Owns(s, t, m)
    requires name !in s.tables.names && IsId(id) && id !in s.tables.refs
    ensures CanDeadlock(d, start, t)
  {
    LeadsInv(d, start, s);
    var n := NewMutex(s);
    var u := NewThread(s, t);
    var s1 := s.(tables := Registered(s.tables, name, id), ids := s.ids[n := id]);
    GoOn(d, start, s, Create(n, name, id), s1);
    UnrecordedMeetsNew(d, start, s1, t, u, m, n);
  }

  /** The id has no edges yet, so no path leads to it. */
  lemma NewIdUnreached(r: Order, a: int, id: int)
    requires forall e | e in r :: e.1 != id
    ensures !Reaches(r, a, id)
  {
    forall p | IsPath(r, p) ensures p[|p| - 1] != id {
      assert (p[|p| - 2], p[|p| - 2 + 1]) in r;
    }
  }

  lemma UnrecordedMeetsNew(d: Discipline, start: State, s: State, t: Thread, u: Thread, m: Mutex, n: Mutex)
    requires s.Running? && Leads(d, start, s) && t != u && PcOf(s, t).Idle? && PcOf(s, u).Idle?
    requires HeldIds(s, t) == HeldIds(s, u) == {}
    requires m in s.ids && Owns(s, t, m) && n in s.ids && n !in s.owners && s.ids[n] != s.ids[m]
    requires forall e | e in s.tables.order :: e.1 != s.ids[n]
    ensures CanDeadlock(d, start, t)
  {
    LeadsAcyclic(d, start, s);
    NoLocksNoCycle(s, u, s.ids[n]);
    LockRuns(d, start, s, u, n);
    var s1 := AfterLock(s, u, n);
    NoLocksNoCycle(s1, t, s.ids[n]);
    LockBlocks(d, start, s1, t, n);
    var s2 := AfterBlock(s1, t, n);
    NewIdUnreached(s2.tables.order, s.ids[m], s.ids[n]);
    SecondLock(s2, u, s.ids[n], s.ids[m]);
    LockBlocks(d, start, s2, u, m);
    var s3 := AfterBlock(s2, u, m);
    assert BlockedOn(s3, t, n) && BlockedOn(s3, u, m);
    assert CircularWait(s3, {t, u});
    assert DeadlockWith(d, start, t, u);
  }

  /** From every reachable state with a lock name to spare: a try_lock that succeeds on a name already
      held can end in a circular wait.  Unlocking the mutex again takes the name out of the record, and
      the thread then owns the other mutex of that name unrecorded. */
  lemma HeldNameCanDeadlock(d: Discipline, s: State, t: Thread, m: Mutex, name: Name, id: int)
    requires Reachable(d, s) && Enabled(d, s, TryLock(t, m)) && m !in s.owners && s.ids[m] in HeldIds(s, t)
    requires name !in s.tables.names && IsId(id) && id !in s.tables.refs
    ensures CanDeadlock(d, Apply(d, s, TryLock(t, m)), t)
  {
    ReachableInv(d, s);
    assert ThreadInv(s, t);
    var kept :| Anchors(s, t, kept) && s.ids[kept] == s.ids[m];
    var s1 := Apply(d, s, TryLock(t, m));
    Go(d, s, TryLock(t, m), s1);
    StartHere(d, s1);
    TryAndUnlockRuns(d, s1, s1, t, m);
    var s2 := UnlockTheRest(d, s1, AfterUnlock(s1, t, m), t, kept);
    UnrecordedOwnerCanDeadlock(d, s1, s2, t, kept, name, id);
  }

  // ---------- exactly the two promises ----------

  /** Thread 0 has locked mutex 0 of name `a`; mutex 1 is of name `b`. */
  ghost function FirstLocked(a: Name, b: Name): (s: State) {
    var names := if a == b then map[a := 0] else map[a := 0, b := 1];
    var refs := if a == b then map[0 := 2] else map[0 := 1, 1 := 1];
    var ids := map[0 := 0, 1 := if a == b then 0 else 1];
    AfterLock(Running(Tables(names, refs, map[], {}), ids, map[], map[]), 0, 0)
  }

  lemma FirstLockedReachable(d: Discipline, a: Name, b: Name)
    ensures Reachable(d, FirstLocked(a, b))
  {
    var s0 := Running(Tables(map[], map[], map[], {}), map[], map[], map[]);
    var s1 := Running(Tables(map[a := 0], map[0 := 1], map[], {}), map[0 := 0], map[], map[]);
    var s2 := Apply(d, s1, Create(1, b, if a == b then 0 else 1));
    Start(d);
    Go(d, s0, Create(0, a, 0), s1);
    Go(d, s1, Create(1, b, if a == b then 0 else 1), s2);
    EmptyAcyclic();
    NoLocksNoCycle(s2, 0, 0);
    StartHere(d, s2);
    LockRuns(d, s2, s2, 0, 0);
    LeadsReachable(d, s2, AfterLock(s2, 0, 0));
    assert AfterLock(s2, 0, 0) == FirstLocked(a, b);
  }

  ghost predicate DeadlockFree(d: Discipline) {
    forall s, ts :: Reachable(d, s) ==> !CircularWait(s, ts)
  }

  lemma NotDeadlockFree(d: Discipline, start: State, t: Thread)
    requires CanDeadlock(d, start, t)
    ensures !DeadlockFree(d)
  {
    var u :| u != t && DeadlockWith(d, start, t, u);
    var s :| Leads(d, start, s) && CircularWait(s, {t, u});
    LeadsReachable(d, start, s);
  }

  /** Mutexes 0 and 1 share a name: locking the first and try-locking the second. */
  lemma TryLockOnHeldNameDeadlocks(d: Discipline, a: Name, b: Name)
    requires a != b && !d.freshTryLock
    ensures !DeadlockFree(d)
  {
    var s := FirstLocked(a, a);
    FirstLockedReachable(d, a, a);
    assert HeldIds(s, 0) == {0};
    HeldNameCanDeadlock(d, s, 0, 1, b, 1);
    NotDeadlockFree(d, Apply(d, s, TryLock(0, 1)), 0);
  }

  /** Mutexes 0 and 1 have different names: locking 0, then 1, and waiting on a condition with 0. */
  lemma UnorderedWaitDeadlocks(d: Discipline, a: Name, b: Name)
    requires a != b && !d.orderedWait
    ensures !DeadlockFree(d)
  {
    var s := FirstLocked(a, b);
    FirstLockedReachable(d, a, b);
    ReachableInv(d, s);
    assert HeldIds(s, 0) == {0} && s.tables.order == {};
    NewIdUnreached({}, 1, 0);
    SecondLock(s, 0, 0, 1);
    StartHere(d, s);
    LockRuns(d, s, s, 0, 1);
    var s1 := AfterLock(s, 0, 1);
    LeadsReachable(d, s, s1);
    NewIdUnreached(s1.tables.order, 1, 0);
    UnorderedWaitCanDeadlock(d, s1, 0, 0, 1);
    NotDeadlockFree(d, Apply(d, s1, Wait(0, 0)), 0);
  }

  /** Given two lock names, every reachable state is free of circular waits exactly when callers keep
      to both promises. */
  lemma DeadlockFreeExactly(d: Discipline, a: Name, b: Name)
    requires a != b
    ensures DeadlockFree(d) <==> d.freshTryLock && d.orderedWait
  {
    if !d.freshTryLock {
      TryLockOnHeldNameDeadlocks(d, a, b);
    } else if !d.orderedWait {
      UnorderedWaitDeadlocks(d, a, b);
    } else {
      forall s, ts | Reachable(d, s) ensures !CircularWait(s, ts) {
        ReachableDeadlockFree(s, ts);
      }
    }
  }

  // ---------- why the promise about waits asks for an edge and not for a path ----------

  ghost predicate SameLocks(s: State, s': State) {
    s.Running? && s'.Running? && s'.ids == s.ids && s'.tables.refs == s.tables.refs && s'.tables.names == s.tables.names
  }

  /** Thread 0, holding `h` alone, locks `m` and then unlocks the mutex of `h`. */
  lemma HandOver(d: Discipline, start: State, s: State, first: Mutex, m: Mutex) returns (s': State)
    requires s.Running? && Leads(d, start, s) && s.pcs == map[0 := Idle] && s.owners == map[first := 0]
    requires first in s.ids && HeldIds(s, 0) == {s.ids[first]}
    requires m in s.ids && m != first && s.ids[m] != s.ids[first]
    requires !Reaches(s.tables.order, s.ids[m], s.ids[first])
    ensures SameLocks(s, s') && Leads(d, start, s') && s'.pcs == map[0 := Idle] && s'.owners == map[m := 0]
    ensures HeldIds(s', 0) == {s.ids[m]} && s'.tables.order == s.tables.order + {(s.ids[first], s.ids[m])}
  {
    LeadsAcyclic(d, start, s);
    SecondLock(s, 0, s.ids[first], s.ids[m]);
    LockRuns(d, start, s, 0, m);
    var s1 := AfterLock(s, 0, m);
    UnlockRuns(d, start, s1, 0, first);
    s' := AfterUnlock(s1, 0, first);
    assert HeldIds(s1, 0) == {s.ids[first], s.ids[m]};
    assert EdgesInto({s.ids[first]}, s.ids[m]) == {(s.ids[first], s.ids[m])};
  }

  /** Mutexes 0, 1 and 2 have different names; thread 0 locks 0, hands over to 1, and hands over to 2. */
  lemma PathWithoutEdge(d: Discipline, a: Name, b: Name, c: Name) returns (s: State)
    requires a != b && b != c && a != c
    ensures Reachable(d, s) && s.Running? && s.ids == map[0 := 0, 1 := 1, 2 := 2] && s.owners == map[2 := 0]
    ensures s.tables.order == {(0, 1), (1, 2)} && HeldIds(s, 0) == {2} && s.pcs == map[0 := Idle]
    ensures s.tables.refs == map[0 := 1, 1 := 1, 2 := 1]
  {
    var start := FirstLocked(a, b);
    FirstLockedReachable(d, a, b);
    StartHere(d, start);
    NewIdUnreached(start.tables.order, 1, 0);
    var s1 := HandOver(d, start, start, 0, 1);
    assert start.tables.order == {};
    s := ThirdMutex(d, start, s1, c);
    LeadsReachable(d, start, s);
  }

  lemma ThirdMutex(d: Discipline, start: State, s: State, c: Name) returns (s': State)
    requires s.Running? && Leads(d, start, s) && c !in s.tables.names && s.tables.refs == map[0 := 1, 1 := 1]
    requires s.ids == map[0 := 0, 1 := 1] && s.owners == map[1 := 0] && s.pcs == map[0 := Idle]
    requires s.tables.order == {(0, 1)} && HeldIds(s, 0) == {1}
    ensures s'.Running? && Leads(d, start, s') && s'.tables.refs == map[0 := 1, 1 := 1, 2 := 1]
    ensures s'.ids == map[0 := 0, 1 := 1, 2 := 2] && s'.owners == map[2 := 0] && s'.pcs == map[0 := Idle]
    ensures s'.tables.order == {(0, 1), (1, 2)} && HeldIds(s', 0) == {2}
  {
    var s1 := s.(tables := Registered(s.tables, c, 2), ids := s.ids[2 := 2]);
    GoOn(d, start, s, Create(2, c, 2), s1);
    ReachesUnfold(s.tables.order, 2, 1);
    s' := HandOver(d, start, s1, 1, 2);
  }

  /** A recorded path from every other lock to the one given up is not enough: thread 0 owns mutexes 0
      and 2, and the path from 0 to 2 leads through mutex 1, which is destroyed during the wait. */
  lemma PathIsNotEnough(d: Discipline, a: Name, b: Name, c: Name)
    requires a != b && b != c && a != c && !d.orderedWait
    ensures exists s :: Reachable(d, s) && PathToEach(d, s) && CanDeadlock(d, Apply(d, s, Wait(0, 2)), 0)
  {
    var s0 := PathWithoutEdge(d, a, b, c);
    var s := TryFirst(d, s0);
    EdgeReaches(s.tables.order, 0, 1);
    EdgeReaches(s.tables.order, 1, 2);
    ReachesTransitive(s.tables.order, 0, 1, 2);
    assert PathToEach(d, s);
    WaitLosesPath(d, s);
  }

  lemma TryFirst(d: Discipline, s: State) returns (s': State)
    requires s.Running? && Reachable(d, s) && s.pcs == map[0 := Idle] && s.owners == map[2 := 0]
    requires s.ids == map[0 := 0, 1 := 1, 2 := 2] && HeldIds(s, 0) == {2}
    ensures SameLocks(s, s') && Reachable(d, s') && s'.pcs == s.pcs && s'.owners == map[2 := 0, 0 := 0]
    ensures s'.tables.order == s.tables.order
  {
    var s1 := At(Take(s, 0, 0), 0, Acquired(0));
    s' := At(s1.(tables := Locked(s1.tables, 0, 0)), 0, Idle);
    Go(d, s, TryLock(0, 0), s1);
    Go(d, s1, RecordHeld(0), s');
  }

  /** Thread 0 may wait with mutex 2, and a recorded path leads to it from every other lock it owns. */
  ghost predicate PathToEach(d: Discipline, s: State) {
    && Enabled(d, s, Wait(0, 2))
    && forall m | Owns(s, 0, m) && m != 2 && m in s.ids :: Reaches(s.tables.order, s.ids[m], s.ids[2])
  }

  lemma WaitLosesPath(d: Discipline, s: State)
    requires s.Running? && Reachable(d, s) && Enabled(d, s, Wait(0, 2)) && s.pcs == map[0 := Idle]
    requires s.ids == map[0 := 0, 1 := 1, 2 := 2] && s.owners == map[2 := 0, 0 := 0]
    requires s.tables.order == {(0, 1), (1, 2)} && s.tables.refs == map[0 := 1, 1 := 1, 2 := 1]
    ensures CanDeadlock(d, Apply(d, s, Wait(0, 2)), 0)
  {
    var s1 := Apply(d, s, Wait(0, 2));
    Go(d, s, Wait(0, 2), s1);
    StartHere(d, s1);
    var s2 := Apply(d, s1, Destroy(1));
    GoOn(d, s1, s1, Destroy(1), s2);
    NewIdUnreached(s2.tables.order, 0, 2);
    SleeperCanDeadlock(d, s1, s2, 0, 2, 0);
  }
}
