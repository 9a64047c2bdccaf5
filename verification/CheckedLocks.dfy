/**
 The detector at work: all debug mutexes of a program together with the one detector they call.
 Each method makes the detector call that its step of the lock protocol stands for, on the byte
 tables, and is proved to be that step; so a program that calls these methods follows a run of the
 protocol, the detector's calls always meet their conditions, and no circular wait arises.
 */
module CheckedLocks {
  import opened BitPacking
  import opened Lockdep
  import opened LockProtocol

  /** Steps that make no detector call. */
  predicate Silent(a: Action) {
    a.FastAttempt? || a.Grant? || a.TryLock? || a.Release? || a.Wait? || a.Wake? || a.Regain?
  }

  class CheckedLocks {
    const detector: Detector
    ghost const discipline: Discipline // what the program's threads promise
    var ids: map<Mutex, int>           // the `id` field of every live mutex
    var aborted: bool
    ghost var owners: map<Mutex, Thread>
    ghost var pcs: map<Thread, Pc>

    ghost function View(): (s: State)
      reads this, detector, detector.tree
    {
      if aborted then Crashed else Running(detector.Abs(), ids, owners, pcs)
    }

    /** The tables are consistent, and some run leads to the state of the object. */
    ghost predicate Valid()
      reads this, detector, detector.ids, detector.ids.bytes, detector.tree, detector.tree.bytes, detector.traces
    {
      Reachable(discipline, View()) && (!aborted ==> detector.Valid())
    }

    constructor (ghost d: Discipline)
      ensures Valid() && Initial(View()) && discipline == d && !aborted
      ensures fresh(detector) && fresh(detector.ids) && fresh(detector.ids.bytes)
      ensures fresh(detector.tree) && fresh(detector.tree.bytes) && fresh(detector.traces)
    {
      detector := new Detector();
      ids, aborted, owners, pcs, discipline := map[], false, map[], map[], d;
      new;
      Start(d);
    }

    /** The constructor of a mutex; throws if and only if MAX_LOCKS other names are live. */
    method Construct(m: Mutex, name: Name) returns (ok: bool)
      requires Valid() && !aborted && m !in ids
      modifies this, detector, detector.ids, detector.ids.bytes
      ensures Valid() && !aborted
      ensures ok <==> name in old(detector.nameToId) || |old(detector.nameToId)| != MAX_LOCKS
      ensures ok ==> m in ids && Enabled(discipline, old(View()), Create(m, name, ids[m]))
      ensures ok ==> View() == Apply(discipline, old(View()), Create(m, name, ids[m]))
      ensures !ok ==> View() == old(View())
    {
      ghost var s := View();
      OwnersAreLive(discipline, s);
      var id := detector.Register(name);
      if id < 0 {
        return false;
      }
      ids := ids[m := id];
      Go(discipline, s, Create(m, name, id), View());
      return true;
    }

    /** The destructor of a mutex. */
    method Destruct(m: Mutex)
      requires Valid() && Enabled(discipline, View(), Destroy(m))
      modifies this, detector, detector.ids, detector.ids.bytes
      modifies detector.tree, detector.tree.bytes, detector.traces
      ensures Valid() && View() == Apply(discipline, old(View()), Destroy(m))
    {
      ghost var s := View();
      FreedIsNotHeld(discipline, s, m);
      detector.Unregister(ids[m]);
      ids := ids - {m};
      Go(discipline, s, Destroy(m), View());
    }

    /** lockdep_will_lock: the process is aborted exactly when the step of the protocol crashes. */
    method WillLock(t: Thread, m: Mutex, name: Name)
      requires Valid() && Enabled(discipline, View(), CheckOrder(t, m))
      modifies this, detector, detector.ids, detector.ids.bytes
      modifies detector.tree, detector.tree.bytes, detector.traces
      ensures Valid() && View() == Apply(discipline, old(View()), CheckOrder(t, m))
      ensures aborted <==> WouldCycle(old(detector.Abs()), t, old(ids[m]))
    {
      ghost var s := View();
      IdsAreLive(discipline, s, m);
      var r := detector.WillLock(t, name, ids[m]);
      if r.Aborted? {
        aborted := true;
      } else {
        pcs := pcs[t := Trying(m)];
      }
      Go(discipline, s, CheckOrder(t, m), View());
    }

    /** lockdep_locked, after an acquire of `m`. */
    method Locked(t: Thread, m: Mutex, name: Name)
      requires Valid() && Enabled(discipline, View(), RecordHeld(t)) && PcOf(View(), t) == Acquired(m)
      modifies this, detector, detector.ids, detector.ids.bytes
      ensures Valid() && View() == Apply(discipline, old(View()), RecordHeld(t))
    {
      ghost var s := View();
      IdsAreLive(discipline, s, m);
      var r := detector.RecordLocked(t, name, ids[m]);
      pcs := pcs[t := Idle];
      Go(discipline, s, RecordHeld(t), View());
    }

    /** lockdep_will_unlock, before the release of `m`. */
    method WillUnlock(t: Thread, m: Mutex)
      requires Valid() && Enabled(discipline, View(), UnrecordHeld(t, m))
      modifies this, detector
      ensures Valid() && View() == Apply(discipline, old(View()), UnrecordHeld(t, m))
    {
      ghost var s := View();
      IdsAreLive(discipline, s, m);
      var r := detector.WillUnlock(t, ids[m]);
      pcs := pcs[t := Releasing(m)];
      Go(discipline, s, UnrecordHeld(t, m), View());
    }

    /** A pthread operation. */
    ghost method Pthread(a: Action)
      requires Valid() && Silent(a) && Enabled(discipline, View(), a)
      modifies this`owners, this`pcs
      ensures Valid() && View() == Apply(discipline, old(View()), a)
    {
      Go(discipline, View(), a, Apply(discipline, View(), a));
      owners, pcs := Apply(discipline, View(), a).owners, Apply(discipline, View(), a).pcs;
    }

    /** If the threads keep both promises, then whatever sequence of these calls came before, there is
        no circular wait. */
    lemma NeverStuck(ts: set<Thread>)
      requires Valid() && discipline == STRICT
      ensures !CircularWait(View(), ts)
    {
      ReachableDeadlockFree(View(), ts);
    }
  }

  lemma OwnersAreLive(d: Discipline, s: State)
    requires Reachable(d, s) && s.Running?
    ensures s.owners.Keys <= s.ids.Keys
  {
    ReachableInv(d, s);
  }

  /** A mutex's id is a live, hence non-negative, id of the detector. */
  lemma IdsAreLive(d: Discipline, s: State, m: Mutex)
    requires Reachable(d, s) && s.Running? && m in s.ids
    ensures s.ids[m] in s.tables.refs
  {
    ReachableInv(d, s);
  }

  /** When the last mutex of an id is destroyed, no thread is recorded as holding the id. */
  lemma FreedIsNotHeld(d: Discipline, s: State, m: Mutex)
    requires Reachable(d, s) && Enabled(d, s, Destroy(m))
    ensures s.ids[m] in s.tables.refs
    ensures s.tables.refs[s.ids[m]] == 1 ==> HeldByNobody(s.tables.held, s.ids[m])
  {
    ReachableInv(d, s);
    forall t | t in s.tables.held ensures s.tables.refs[s.ids[m]] == 1 ==> s.ids[m] !in s.tables.held[t] {
      assert ThreadInv(s, t);
      DestroyView(d, s, m, t);
    }
  }
}
