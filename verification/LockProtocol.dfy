/**
 Threads using debug mutexes with the lock-order detector switched on, as a step relation: every
 step is one region that runs without interference (a detector call under the detector's own
 mutex, one pthread operation, or the release-and-sleep of a condition wait).  The main result is
 that no run that has not been aborted reaches a circular wait.
 */
module LockProtocol {
  import opened BitPacking
  import opened LockOrder
  import opened Lockdep

  type Mutex = nat

  /** Where a thread is inside a mutex or condition-variable call. */
  datatype Pc =
    | Idle                   // outside the library
    | Trying(m: Mutex)       // the order check passed, the fast attempt comes next
    | Blocked(m: Mutex)      // inside the blocking acquire
    | Acquired(m: Mutex)     // owns the mutex, not yet recorded as held
    | Releasing(m: Mutex)    // no longer recorded as held, still owns the mutex
    | Sleeping(m: Mutex)     // in a condition wait, mutex released
    | Regaining(m: Mutex)    // woken, blocked on getting the mutex back

  datatype State =
    | Running(
        tables: Tables,
        ids: map<Mutex, int>,          // the live mutexes and their lock ids
        owners: map<Mutex, Thread>,    // the locked ones and their owners
        pcs: map<Thread, Pc>)
    | Crashed                          // the process was aborted

  datatype Action =
    | Create(m: Mutex, name: Name, id: int)
    | Destroy(m: Mutex)
    | CheckOrder(t: Thread, m: Mutex)
    | FastAttempt(t: Thread)
    | Grant(t: Thread)
    | RecordHeld(t: Thread)
    | TryLock(t: Thread, m: Mutex)
    | UnrecordHeld(t: Thread, m: Mutex)
    | Release(t: Thread)
    | Wait(t: Thread, m: Mutex)
    | Wake(t: Thread)
    | Regain(t: Thread)

  /** What callers promise beyond using the interface correctly. */
  datatype Discipline = Discipline(
    freshTryLock: bool,   // no try_lock succeeds on a name the thread already holds
    orderedWait: bool)    // a condition wait gives up a lock ordered after all others the thread owns

  function PcOf(s: State, t: Thread): (pc: Pc)
    requires s.Running?
  {
    if t in s.pcs then s.pcs[t] else Idle
  }

  predicate Owns(s: State, t: Thread, m: Mutex)
    requires s.Running?
  {
    m in s.owners && s.owners[m] == t
  }

  predicate Mentions(pc: Pc, m: Mutex) {
    !pc.Idle? && pc.m == m
  }

  function HeldIds(s: State, t: Thread): (ids: set<int>)
    requires s.Running?
  {
    HeldBy(s.tables.held, t)
  }

  /** Owned mutexes other than `m` all precede `m` in the recorded order. */
  ghost predicate OthersPrecede(s: State, t: Thread, m: Mutex)
    requires s.Running? && m in s.ids
  {
    forall m' | Owns(s, t, m') && m' != m && m' in s.ids :: (s.ids[m'], s.ids[m]) in s.tables.order
  }

  // ---------- steps ----------

  ghost predicate Enabled(d: Discipline, s: State, a: Action) {
    s.Running? &&
    match a
    case Create(m, name, id) =>
      m !in s.ids && m !in s.owners &&
      if name in s.tables.names then id == s.tables.names[name] else IsId(id) && id !in s.tables.refs
    case Destroy(m) =>
      // never destroyed while owned or awaited
      && m in s.ids && m !in s.owners && s.ids[m] in s.tables.refs
      && (forall t :: !Mentions(PcOf(s, t), m))
    case CheckOrder(t, m) => PcOf(s, t).Idle? && m in s.ids
    case FastAttempt(t) => PcOf(s, t).Trying?
    case Grant(t) => PcOf(s, t).Blocked? && PcOf(s, t).m !in s.owners
    case RecordHeld(t) => PcOf(s, t).Acquired? && PcOf(s, t).m in s.ids
    case TryLock(t, m) =>
      PcOf(s, t).Idle? && m in s.ids && (d.freshTryLock && m !in s.owners ==> s.ids[m] !in HeldIds(s, t))
    case UnrecordHeld(t, m) => PcOf(s, t).Idle? && Owns(s, t, m) && m in s.ids
    case Release(t) => PcOf(s, t).Releasing?
    case Wait(t, m) =>
      PcOf(s, t).Idle? && Owns(s, t, m) && m in s.ids && (d.orderedWait ==> OthersPrecede(s, t, m))
    case Wake(t) => PcOf(s, t).Sleeping?
    case Regain(t) => PcOf(s, t).Regaining? && PcOf(s, t).m !in s.owners
  }

  function At(s: State, t: Thread, pc: Pc): (s': State)
    requires s.Running?
  {
    s.(pcs := s.pcs[t := pc])
  }

  function Take(s: State, t: Thread, m: Mutex): (s': State)
    requires s.Running?
  {
    s.(owners := s.owners[m := t])
  }

  function Drop(s: State, m: Mutex): (s': State)
    requires s.Running?
  {
    s.(owners := s.owners - {m})
  }

  ghost function Apply(d: Discipline, s: State, a: Action): (s': State)
    requires Enabled(d, s, a)
  {
    match a
    case Create(m, name, id) => s.(tables := Registered(s.tables, name, id), ids := s.ids[m := id])
    case Destroy(m) => s.(tables := Unregistered(s.tables, s.ids[m]), ids := s.ids - {m})
    case CheckOrder(t, m) =>
      if WouldCycle(s.tables, t, s.ids[m]) then Crashed
      else At(s.(tables := Ordered(s.tables, t, s.ids[m])), t, Trying(m))
    case FastAttempt(t) =>
      var m := PcOf(s, t).m;
      if m !in s.owners then At(Take(s, t, m), t, Acquired(m))
      else if s.owners[m] == t then At(s, t, Idle)    // the error-checking mutex makes lock() throw
      else At(s, t, Blocked(m))
    case Grant(t) => At(Take(s, t, PcOf(s, t).m), t, Acquired(PcOf(s, t).m))
    case RecordHeld(t) => At(s.(tables := Locked(s.tables, t, s.ids[PcOf(s, t).m])), t, Idle)
    case TryLock(t, m) => if m !in s.owners then At(Take(s, t, m), t, Acquired(m)) else s
    case UnrecordHeld(t, m) => At(s.(tables := Unlocked(s.tables, t, s.ids[m])), t, Releasing(m))
    case Release(t) => At(Drop(s, PcOf(s, t).m), t, Idle)
    case Wait(t, m) => At(Drop(s, m), t, Sleeping(m))
    case Wake(t) => At(s, t, Regaining(PcOf(s, t).m))
    case Regain(t) => At(Take(s, t, PcOf(s, t).m), t, Idle)
  }

  ghost predicate Initial(s: State) {
    s == Running(Tables(map[], map[], map[], {}), map[], map[], map[])
  }

  /** `states` is a run in which every step is an enabled action. */
  ghost predicate IsRun(d: Discipline, states: seq<State>, actions: seq<Action>) {
    && |states| == |actions| + 1 && Initial(states[0])
    && forall i | 0 <= i < |actions| ::
         Enabled(d, states[i], actions[i]) && states[i + 1] == Apply(d, states[i], actions[i])
  }

  // ---------- circular waits ----------

  predicate BlockedOn(s: State, t: Thread, m: Mutex)
    requires s.Running?
  {
    PcOf(s, t) == Blocked(m) || PcOf(s, t) == Regaining(m)
  }

  /** `t` waits for a mutex that a thread of the set owns. */
  ghost predicate WaitsInside(s: State, ts: set<Thread>, t: Thread)
    requires s.Running?
  {
    exists m :: BlockedOn(s, t, m) && m in s.owners && s.owners[m] in ts
  }

  /** Every thread of the set waits for a mutex that a thread of the set owns. */
  ghost predicate CircularWait(s: State, ts: set<Thread>) {
    s.Running? && ts != {} && forall t {:trigger WaitsInside(s, ts, t)} | t in ts :: WaitsInside(s, ts, t)
  }

  // ---------- the invariant of every run ----------

  ghost function MutexesOf(ids: map<Mutex, int>, id: int): (ms: set<Mutex>) {
    set m | m in ids && ids[m] == id
  }

  /** Reference counts are the numbers of live mutexes. */
  ghost predicate RefsInv(ids: map<Mutex, int>, refs: map<int, int>) {
    && (forall m | m in ids :: ids[m] in refs)
    && (forall i | i in refs :: refs[i] == |MutexesOf(ids, i)| >= 1)
  }

  /** An acyclic order between live ids, live ids in the held sets, and live mutexes locked only. */
  ghost predicate OrderInv(s: State)
    requires s.Running?
  {
    OrderConsistent(s.tables.order, s.tables.refs.Keys, s.tables.held) && s.owners.Keys <= s.ids.Keys
  }

  /** The thread has `m` in hand, or is in a condition wait on it. */
  ghost predicate Anchors(s: State, t: Thread, m: Mutex)
    requires s.Running?
  {
    m in s.ids && (Owns(s, t, m) || PcOf(s, t) == Sleeping(m) || PcOf(s, t) == Regaining(m))
  }

  /** Recorded as held means anchored by a live mutex of that id. */
  ghost predicate HeldInv(s: State, t: Thread)
    requires s.Running?
  {
    forall h | h in HeldIds(s, t) :: exists m :: Anchors(s, t, m) && s.ids[m] == h
  }

  /** A call in progress is about a live mutex, owned right after the acquire and before the release,
      and not owned while the thread waits for it. */
  ghost predicate PcInv(s: State, t: Thread)
    requires s.Running?
  {
    var pc := PcOf(s, t);
    !pc.Idle? ==>
      && pc.m in s.ids
      && (pc.Acquired? || pc.Releasing? ==> Owns(s, t, pc.m))
      && (pc.Releasing? ==> s.ids[pc.m] !in HeldIds(s, t))
      && (pc.Blocked? || pc.Sleeping? || pc.Regaining? ==> !Owns(s, t, pc.m))
  }

  ghost predicate ThreadInv(s: State, t: Thread)
    requires s.Running?
  {
    HeldInv(s, t) && PcInv(s, t)
  }

  /** What holds whether or not callers keep their promises. */
  ghost predicate Inv(s: State) {
    s.Running? ==> RefsInv(s.ids, s.tables.refs) && OrderInv(s) && forall t :: ThreadInv(s, t)
  }

  // ---------- every step keeps it ----------

  /** What thread `u` can see of a step: its program point, held set and ownership stay, and so do
      the mutexes it is concerned with and the order between its locks and the one it waits for. */
  ghost predicate SameView(s: State, s': State, u: Thread) {
    && s.Running? && s'.Running?
    && PcOf(s', u) == PcOf(s, u) && HeldIds(s', u) == HeldIds(s, u)
    && (forall m :: Owns(s', u, m) <==> Owns(s, u, m))
    && (forall m | m in s.ids && (Owns(s, u, m) || Mentions(PcOf(s, u), m)) :: m in s'.ids && s'.ids[m] == s.ids[m])
    && (forall m | m in s'.ids && Owns(s, u, m) :: m in s.ids)
    && (forall h, m | h in HeldIds(s, u) && m in s.ids && Mentions(PcOf(s, u), m) ::
          (h, s.ids[m]) in s.tables.order ==> (h, s.ids[m]) in s'.tables.order)
  }

  lemma ViewKeeps(s: State, s': State, u: Thread)
    requires SameView(s, s', u) && ThreadInv(s, u)
    ensures ThreadInv(s', u)
  {
    forall h | h in HeldIds(s', u) ensures exists m :: Anchors(s', u, m) && s'.ids[m] == h {
      assert h in HeldIds(s, u);
      var m :| Anchors(s, u, m) && s.ids[m] == h;
      assert Anchors(s', u, m);
    }
  }

  /** A step of `t` as the other threads see it: the mutexes stay, the order may grow, and nobody
      else's program point, held set or ownership changes. */
  ghost predicate StepOf(s: State, s': State, t: Thread) {
    && s.Running? && s'.Running?
    && s'.ids == s.ids && s'.tables.refs == s.tables.refs && s.tables.order <= s'.tables.order
    && (forall u | u != t :: PcOf(s', u) == PcOf(s, u))
    && (forall u | u != t :: HeldIds(s', u) == HeldIds(s, u))
    && (forall u, m | u != t :: Owns(s', u, m) <==> Owns(s, u, m))
  }

  /** Anchors that survive a step of `t`, except possibly for one id, keep its held set anchored. */
  lemma AnchorsKeep(s: State, s': State, t: Thread, id: int)
    requires StepOf(s, s', t) && HeldInv(s, t)
    requires forall m | Anchors(s, t, m) && s.ids[m] != id :: Anchors(s', t, m)
    requires HeldIds(s', t) <= HeldIds(s, t) + {id}
    requires id in HeldIds(s', t) ==> exists m :: Anchors(s', t, m) && s'.ids[m] == id
    ensures HeldInv(s', t)
  {
    forall h | h in HeldIds(s', t) ensures exists m :: Anchors(s', t, m) && s'.ids[m] == h {
      if h != id {
        var m :| Anchors(s, t, m) && s.ids[m] == h;
        assert Anchors(s', t, m);
      }
    }
  }

  /** Steps of lock() and try_lock() up to the acquire, and the two ends of a condition wait: no
      anchor is lost and nothing new is recorded as held. */
  lemma AnchoredStep(d: Discipline, s: State, a: Action)
    requires a.CheckOrder? || a.FastAttempt? || a.Grant? || a.TryLock? || a.Wake? || a.Regain?
    requires Enabled(d, s, a) && ThreadInv(s, a.t)
    ensures var s' := Apply(d, s, a); s'.Running? ==> StepOf(s, s', a.t) && ThreadInv(s', a.t)
  {
    var s' := Apply(d, s, a);
    if s'.Running? {
      assert StepOf(s, s', a.t);
      AnchorsKeep(s, s', a.t, -1);
    }
  }

  lemma RecordHeldLocal(d: Discipline, s: State, t: Thread)
    requires Enabled(d, s, RecordHeld(t)) && ThreadInv(s, t)
    ensures var s' := Apply(d, s, RecordHeld(t)); StepOf(s, s', t) && ThreadInv(s', t)
  {
    var s', m := Apply(d, s, RecordHeld(t)), PcOf(s, t).m;
    assert Anchors(s', t, m);
    AnchorsKeep(s, s', t, s.ids[m]);
  }

  lemma UnrecordHeldLocal(d: Discipline, s: State, t: Thread, m: Mutex)
    requires Enabled(d, s, UnrecordHeld(t, m)) && ThreadInv(s, t)
    ensures var s' := Apply(d, s, UnrecordHeld(t, m)); StepOf(s, s', t) && ThreadInv(s', t)
  {
    var s' := Apply(d, s, UnrecordHeld(t, m));
    AnchorsKeep(s, s', t, s.ids[m]);
  }

  lemma ReleaseLocal(d: Discipline, s: State, t: Thread)
    requires Enabled(d, s, Release(t)) && ThreadInv(s, t)
    ensures var s' := Apply(d, s, Release(t)); StepOf(s, s', t) && ThreadInv(s', t)
  {
    var s', m := Apply(d, s, Release(t)), PcOf(s, t).m;
    AnchorsKeep(s, s', t, s.ids[m]);
  }

  lemma WaitLocal(d: Discipline, s: State, t: Thread, m: Mutex)
    requires Enabled(d, s, Wait(t, m)) && ThreadInv(s, t)
    ensures var s' := Apply(d, s, Wait(t, m)); StepOf(s, s', t) && ThreadInv(s', t)
  {
    var s' := Apply(d, s, Wait(t, m));
    assert Anchors(s', t, m);
    AnchorsKeep(s, s', t, s.ids[m]);
  }

  lemma ThreadStepLocal(d: Discipline, s: State, a: Action)
    requires !a.Create? && !a.Destroy? && Enabled(d, s, a) && ThreadInv(s, a.t)
    ensures var s' := Apply(d, s, a); s'.Running? ==> StepOf(s, s', a.t) && ThreadInv(s', a.t)
  {
    match a
    case RecordHeld(t) => RecordHeldLocal(d, s, t);
    case UnrecordHeld(t, m) => UnrecordHeldLocal(d, s, t, m);
    case Release(t) => ReleaseLocal(d, s, t);
    case Wait(t, m) => WaitLocal(d, s, t, m);
    case _ => AnchoredStep(d, s, a);
  }

  /** A thread's step leaves the order acyclic and all tables about live ids. */
  lemma ThreadStepOrder(d: Discipline, s: State, a: Action)
    requires !a.Create? && !a.Destroy? && Enabled(d, s, a)
    requires OrderInv(s) && RefsInv(s.ids, s.tables.refs) && PcInv(s, a.t)
    ensures var s' := Apply(d, s, a); s'.Running? ==> OrderInv(s')
  {
  }

  lemma ThreadStepKeeps(d: Discipline, s: State, a: Action)
    requires Inv(s) && Enabled(d, s, a) && !a.Create? && !a.Destroy?
    ensures Inv(Apply(d, s, a))
  {
    var s' := Apply(d, s, a);
    assert ThreadInv(s, a.t);
    ThreadStepLocal(d, s, a);
    ThreadStepOrder(d, s, a);
    if s'.Running? {
      forall u ensures ThreadInv(s', u) {
        if u != a.t {
          assert SameView(s, s', u);
          ViewKeeps(s, s', u);
        }
      }
    }
  }

  lemma RefsAdd(ids: map<Mutex, int>, refs: map<int, int>, m: Mutex, id: int)
    requires RefsInv(ids, refs) && m !in ids
    ensures RefsInv(ids[m := id], refs[id := 1 + if id in refs then refs[id] else 0])
  {
    forall i ensures |MutexesOf(ids[m := id], i)| == |MutexesOf(ids, i)| + if i == id then 1 else 0 {
      assert MutexesOf(ids[m := id], i) == MutexesOf(ids, i) + if i == id then {m} else {};
    }
    if id !in refs {
      assert MutexesOf(ids, id) == {};
    }
  }

  lemma RefsRemove(ids: map<Mutex, int>, refs: map<int, int>, m: Mutex)
    requires RefsInv(ids, refs) && m in ids
    ensures var id := ids[m]; RefsInv(ids - {m}, if refs[id] != 1 then refs[id := refs[id] - 1] else refs - {id})
    ensures refs[ids[m]] == 1 ==> forall m' | m' in ids && m' != m :: ids[m'] != ids[m]
  {
    forall i ensures |MutexesOf(ids - {m}, i)| == |MutexesOf(ids, i)| - if i == ids[m] then 1 else 0 {
      assert MutexesOf(ids - {m}, i) == MutexesOf(ids, i) - {m};
    }
    if refs[ids[m]] == 1 {
      forall m' | m' in ids && m' != m ensures ids[m'] != ids[m] {
        assert m' !in MutexesOf(ids - {m}, ids[m]);
      }
    }
  }

  lemma CreateKeeps(d: Discipline, s: State, m: Mutex, name: Name, id: int)
    requires Inv(s) && Enabled(d, s, Create(m, name, id))
    ensures Inv(Apply(d, s, Create(m, name, id)))
  {
    var s' := Apply(d, s, Create(m, name, id));
    RefsAdd(s.ids, s.tables.refs, m, id);
    forall u ensures ThreadInv(s', u) {
      assert SameView(s, s', u);
      ViewKeeps(s, s', u);
    }
  }

  lemma DestroyView(d: Discipline, s: State, m: Mutex, u: Thread)
    requires Enabled(d, s, Destroy(m)) && RefsInv(s.ids, s.tables.refs) && ThreadInv(s, u)
    ensures SameView(s, Apply(d, s, Destroy(m)), u)
    ensures s.tables.refs[s.ids[m]] == 1 ==> s.ids[m] !in HeldIds(s, u)
  {
    RefsRemove(s.ids, s.tables.refs, m);
    assert !Mentions(PcOf(s, u), m);
  }

  lemma DestroyKeeps(d: Discipline, s: State, m: Mutex)
    requires Inv(s) && Enabled(d, s, Destroy(m))
    ensures Inv(Apply(d, s, Destroy(m)))
  {
    var s' := Apply(d, s, Destroy(m));
    RefsRemove(s.ids, s.tables.refs, m);
    AcyclicMonotone(s'.tables.order, s.tables.order);
    forall u ensures ThreadInv(s', u) && (s.tables.refs[s.ids[m]] == 1 ==> s.ids[m] !in HeldIds(s, u)) {
      DestroyView(d, s, m, u);
      ViewKeeps(s, s', u);
    }
    assert forall u | u in s.tables.held :: HeldIds(s, u) == s.tables.held[u];
  }

  /** Every step keeps the invariant: in particular the recorded order stays acyclic. */
  lemma ApplyKeeps(d: Discipline, s: State, a: Action)
    requires Inv(s) && Enabled(d, s, a)
    ensures Inv(Apply(d, s, a))
  {
    match a
    case Create(m, name, id) => CreateKeeps(d, s, m, name, id);
    case Destroy(m) => DestroyKeeps(d, s, m);
    case _ => ThreadStepKeeps(d, s, a);
  }

  lemma {:induction false} RunKeepsInv(d: Discipline, states: seq<State>, actions: seq<Action>, i: nat)
    requires IsRun(d, states, actions) && i < |states|
    ensures Inv(states[i])
  {
    if i == 0 {
      EmptyAcyclic();
    } else {
      RunKeepsInv(d, states, actions, i - 1);
      ApplyKeeps(d, states[i - 1], actions[i - 1]);
    }
  }

  /** In every state of every run, whatever callers do, blocking on a mutex is refused exactly when the
      thread is recorded as holding its lock id, or the recorded order, which is acyclic, leads from
      that id to a lock the thread holds. */
  lemma RefusalIsExact(d: Discipline, states: seq<State>, actions: seq<Action>, i: nat)
    requires IsRun(d, states, actions) && i < |actions| && actions[i].CheckOrder?
    ensures var s, t, id := states[i], actions[i].t, states[i].ids[actions[i].m];
            && Acyclic(s.tables.order)
            && (states[i + 1].Crashed? <==>
                  exists h :: h in HeldIds(s, t) && (h == id || Reaches(s.tables.order, id, h)))
  {
    RunKeepsInv(d, states, actions, i);
    var s := states[i];
    CycleExactly(s.tables.order, HeldIds(s, actions[i].t), s.ids[actions[i].m]);
  }

  /** In every state of every run the reference counts are the numbers of live mutexes, and the order
      and the held sets mention ids of live mutexes only, so a reused id inherits nothing. */
  lemma OnlyLiveIds(d: Discipline, states: seq<State>, actions: seq<Action>, i: nat, id: int)
    requires IsRun(d, states, actions) && i < |states| && states[i].Running?
    ensures var s := states[i];
            && Acyclic(s.tables.order)
            && (id in s.tables.refs <==> MutexesOf(s.ids, id) != {})
            && (id in s.tables.refs ==> s.tables.refs[id] == |MutexesOf(s.ids, id)|)
            && (id !in s.tables.refs ==> forall e | e in s.tables.order :: e.0 != id && e.1 != id)
            && (id !in s.tables.refs ==> forall t :: id !in HeldIds(s, t))
  {
    RunKeepsInv(d, states, actions, i);
    if m :| m in MutexesOf(states[i].ids, id) {
      assert states[i].ids[m] in states[i].tables.refs;
    }
  }

  /** The mutex that the step tries to get, if any. */
  function Wanted(s: State, a: Action): (ms: set<Mutex>)
    requires s.Running?
  {
    match a
    case FastAttempt(t) => if PcOf(s, t).Trying? then {PcOf(s, t).m} else {}
    case Grant(t) => if PcOf(s, t).Blocked? then {PcOf(s, t).m} else {}
    case Regain(t) => if PcOf(s, t).Regaining? then {PcOf(s, t).m} else {}
    case TryLock(_, m) => {m}
    case _ => {}
  }

  /** The mutex that the step gives up, if any. */
  function GivenUp(s: State, a: Action): (ms: set<Mutex>)
    requires s.Running?
  {
    match a
    case Release(t) => if PcOf(s, t).Releasing? then {PcOf(s, t).m} else {}
    case Wait(_, m) => {m}
    case _ => {}
  }

  /** Mutual exclusion: a thread gets the mutex it wants exactly when nobody owns it, and loses exactly
      the one it gives up; nobody else's mutexes change hands.  A lock() blocks exactly when another
      thread owns the mutex. */
  lemma OwnershipMoves(d: Discipline, s: State, a: Action)
    requires Enabled(d, s, a) && !a.Create? && !a.Destroy? && Apply(d, s, a).Running?
    ensures forall m :: Owns(Apply(d, s, a), a.t, m) <==>
                          (Owns(s, a.t, m) && m !in GivenUp(s, a)) || (m in Wanted(s, a) && m !in s.owners)
    ensures forall u, m | u != a.t && m !in GivenUp(s, a) :: Owns(Apply(d, s, a), u, m) <==> Owns(s, u, m)
    ensures PcOf(Apply(d, s, a), a.t).Acquired? && !PcOf(s, a.t).Acquired? ==>
              Owns(Apply(d, s, a), a.t, PcOf(Apply(d, s, a), a.t).m)
    ensures a.FastAttempt? ==> (PcOf(Apply(d, s, a), a.t).Blocked? <==>
                                  PcOf(s, a.t).m in s.owners && s.owners[PcOf(s, a.t).m] != a.t)
  {
  }

  /** No thread ever blocks on a mutex that it owns, whatever callers do: the check aborts, or the
      error-checking mutex makes lock() throw. */
  lemma NeverBlockedOnOwn(d: Discipline, states: seq<State>, actions: seq<Action>, i: nat, t: Thread, m: Mutex)
    requires IsRun(d, states, actions) && i < |states| && states[i].Running? && BlockedOn(states[i], t, m)
    ensures !Owns(states[i], t, m) && m in states[i].ids
  {
    RunKeepsInv(d, states, actions, i);
    assert ThreadInv(states[i], t);
  }

  // ---------- the invariant of runs whose callers keep their promises ----------

  const STRICT := Discipline(true, true)

  /** Owned means recorded as held, except right after the acquire and right before the release; and no
      two owned mutexes share a name. */
  ghost predicate OwnedInv(s: State, t: Thread)
    requires s.Running?
  {
    && (forall m | Owns(s, t, m) && m in s.ids ::
          PcOf(s, t) == Acquired(m) || PcOf(s, t) == Releasing(m) || s.ids[m] in HeldIds(s, t))
    && (forall m, m' | Owns(s, t, m) && Owns(s, t, m') && m in s.ids && m' in s.ids && m != m' :: s.ids[m] != s.ids[m'])
  }

  /** What a thread has precedes what it waits for. */
  ghost predicate WaitInv(s: State, t: Thread)
    requires s.Running?
  {
    match PcOf(s, t)
    case Trying(m) => m in s.ids && forall h | h in HeldIds(s, t) :: (h, s.ids[m]) in s.tables.order
    case Blocked(m) => m in s.ids && forall h | h in HeldIds(s, t) :: (h, s.ids[m]) in s.tables.order
    case Sleeping(m) => m in s.ids && s.ids[m] in HeldIds(s, t) && !Owns(s, t, m) && OthersPrecede(s, t, m)
    case Regaining(m) => m in s.ids && s.ids[m] in HeldIds(s, t) && !Owns(s, t, m) && OthersPrecede(s, t, m)
    case _ => true
  }

  ghost predicate StrictThread(s: State, t: Thread)
    requires s.Running?
  {
    OwnedInv(s, t) && WaitInv(s, t)
  }

  ghost predicate StrictInv(s: State) {
    s.Running? ==> forall t :: StrictThread(s, t)
  }

  ghost predicate Irreflexive(r: Order) {
    forall e | e in r :: e.0 != e.1
  }

  lemma AcyclicIrreflexive(r: Order)
    requires Acyclic(r)
    ensures Irreflexive(r)
  {
    forall e | e in r ensures e.0 != e.1 {
      EdgeReaches(r, e.0, e.1);
    }
  }

  lemma StrictView(s: State, s': State, u: Thread)
    requires SameView(s, s', u) && ThreadInv(s, u) && StrictThread(s, u)
    ensures StrictThread(s', u)
  {
  }

  /** Becoming the owner of a free mutex whose id is not recorded as held. */
  lemma AcquireStrict(s: State, t: Thread, m: Mutex)
    requires s.Running? && ThreadInv(s, t) && StrictThread(s, t) && m in s.ids && m !in s.owners
    requires PcOf(s, t).Idle? || PcOf(s, t).Trying? || PcOf(s, t).Blocked?
    requires s.ids[m] !in HeldIds(s, t)
    ensures StrictThread(At(Take(s, t, m), t, Acquired(m)), t)
  {
  }

  lemma FastAttemptOrGrantStrict(s: State, t: Thread, a: Action)
    requires s.Running? && Irreflexive(s.tables.order) && ThreadInv(s, t) && StrictThread(s, t)
    requires (a == FastAttempt(t) || a == Grant(t)) && Enabled(STRICT, s, a)
    ensures StrictThread(Apply(STRICT, s, a), t)
  {
    var m := PcOf(s, t).m;
    if m !in s.owners {
      assert forall h | h in HeldIds(s, t) :: (h, s.ids[m]) in s.tables.order && h != s.ids[m];
      AcquireStrict(s, t, m);
    }
  }

  /** The lock regained is of a different name than every other lock the thread owns. */
  lemma RegainStrict(s: State, t: Thread)
    requires s.Running? && Irreflexive(s.tables.order) && StrictThread(s, t) && Enabled(STRICT, s, Regain(t))
    ensures StrictThread(Apply(STRICT, s, Regain(t)), t)
  {
    var m := PcOf(s, t).m;
    assert forall m' | Owns(s, t, m') && m' in s.ids :: s.ids[m'] != s.ids[m];
  }

  lemma ThreadStepStrict(s: State, a: Action)
    requires !a.Create? && !a.Destroy? && Enabled(STRICT, s, a)
    requires Irreflexive(s.tables.order) && ThreadInv(s, a.t) && StrictThread(s, a.t)
    ensures var s' := Apply(STRICT, s, a); s'.Running? ==> StrictThread(s', a.t)
  {
    match a
    case FastAttempt(t) => FastAttemptOrGrantStrict(s, t, a);
    case Grant(t) => FastAttemptOrGrantStrict(s, t, a);
    case TryLock(t, m) => if m !in s.owners { AcquireStrict(s, t, m); }
    case Regain(t) => RegainStrict(s, t);
    case _ =>
  }

  /** The step leaves the view of every other thread as it is. */
  lemma OthersSeeNothing(s: State, a: Action, u: Thread)
    requires Inv(s) && Enabled(STRICT, s, a) && Apply(STRICT, s, a).Running?
    requires a.Create? || a.Destroy? || u != a.t
    ensures SameView(s, Apply(STRICT, s, a), u)
  {
    match a
    case Create(m, name, id) => RefsAdd(s.ids, s.tables.refs, m, id);
    case Destroy(m) => DestroyView(STRICT, s, m, u);
    case _ =>
      assert ThreadInv(s, a.t);
      ThreadStepLocal(STRICT, s, a);
  }

  lemma StrictKept(s: State, a: Action)
    requires Inv(s) && StrictInv(s) && Enabled(STRICT, s, a)
    ensures StrictInv(Apply(STRICT, s, a))
  {
    var s' := Apply(STRICT, s, a);
    if s'.Running? {
      AcyclicIrreflexive(s.tables.order);
      forall u ensures StrictThread(s', u) {
        assert ThreadInv(s, u) && StrictThread(s, u);
        if a.Create? || a.Destroy? || u != a.t {
          OthersSeeNothing(s, a, u);
          StrictView(s, s', u);
        } else {
          ThreadStepStrict(s, a);
        }
      }
    }
  }

  lemma {:induction false} RunKeepsStrict(states: seq<State>, actions: seq<Action>, i: nat)
    requires IsRun(STRICT, states, actions) && i < |states|
    ensures StrictInv(states[i])
  {
    if i > 0 {
      RunKeepsStrict(states, actions, i - 1);
      RunKeepsInv(STRICT, states, actions, i - 1);
      StrictKept(states[i - 1], actions[i - 1]);
    }
  }

  // ---------- deadlock freedom ----------

  /** A blocked thread's locks precede the lock it is blocked on. */
  lemma BlockedEdge(s: State, u: Thread, m: Mutex, wanted: Mutex)
    requires s.Running? && Inv(s) && StrictInv(s) && Owns(s, u, m) && BlockedOn(s, u, wanted)
    ensures m in s.ids && wanted in s.ids && (s.ids[m], s.ids[wanted]) in s.tables.order
  {
    assert PcInv(s, u) && OwnedInv(s, u) && WaitInv(s, u) by {
      assert ThreadInv(s, u) && StrictThread(s, u);
    }
    assert s.ids[m] in HeldIds(s, u);
    if PcOf(s, u).Blocked? {
      assert forall h | h in HeldIds(s, u) :: (h, s.ids[wanted]) in s.tables.order;
    }
  }

  /** The locks that the recorded order puts after the one a thread is waiting for. */
  ghost function After(s: State, t: Thread): (ids: set<int>) {
    if s.Running? && !PcOf(s, t).Idle? && PcOf(s, t).m in s.ids
    then ReachSet(s.tables.order, s.ids[PcOf(s, t).m]) else {}
  }

  /** In a circular wait, the owner of the wanted lock waits for one that comes later in the order. */
  lemma OwnerWaitsLater(s: State, ts: set<Thread>, t: Thread) returns (u: Thread)
    requires Inv(s) && StrictInv(s) && CircularWait(s, ts) && t in ts
    ensures u in ts && After(s, u) < After(s, t)
  {
    assert WaitsInside(s, ts, t);
    var m := PcOf(s, t).m;
    u := s.owners[m];
    assert WaitsInside(s, ts, u);
    BlockedEdge(s, u, m, PcOf(s, u).m);
    ReachSetShrinks(s.tables.order, s.ids[m], s.ids[PcOf(s, u).m]);
  }

  lemma {:induction false} NoCircularWait(s: State, ts: set<Thread>, t: Thread)
    requires Inv(s) && StrictInv(s) && t in ts
    ensures !CircularWait(s, ts)
    decreases After(s, t)
  {
    if CircularWait(s, ts) {
      var u := OwnerWaitsLater(s, ts, t);
      NoCircularWait(s, ts, u);
    }
  }

  /** Deadlock freedom: no state of any run, with any number of threads and mutexes, contains a
      circular wait. */
  lemma DeadlockFreedom(states: seq<State>, actions: seq<Action>, i: nat, ts: set<Thread>)
    requires IsRun(STRICT, states, actions) && i < |states|
    ensures !CircularWait(states[i], ts)
  {
    RunKeepsInv(STRICT, states, actions, i);
    RunKeepsStrict(states, actions, i);
    if t :| t in ts {
      NoCircularWait(states[i], ts, t);
    } else {
      assert ts == {};
    }
  }

  // ---------- reachable states ----------

  /** Some run leads to the state. */
  ghost predicate Reachable(d: Discipline, s: State) {
    exists states, actions :: IsRun(d, states, actions) && states[|states| - 1] == s
  }

  lemma Start(d: Discipline)
    ensures Reachable(d, Running(Tables(map[], map[], map[], {}), map[], map[], map[]))
  {
    var s := Running(Tables(map[], map[], map[], {}), map[], map[], map[]);
    assert IsRun(d, [s], []);
    assert [s][|[s]| - 1] == s;
  }

  /** One more step. */
  lemma Go(d: Discipline, s: State, a: Action, s': State)
    requires Reachable(d, s) && Enabled(d, s, a) && Apply(d, s, a) == s'
    ensures Reachable(d, s')
  {
    var states, actions :| IsRun(d, states, actions) && states[|states| - 1] == s;
    var states', actions' := states + [s'], actions + [a];
    forall i | 0 <= i < |actions'|
      ensures Enabled(d, states'[i], actions'[i]) && states'[i + 1] == Apply(d, states'[i], actions'[i])
    {
      if i < |actions| {
        assert states'[i] == states[i] && states'[i + 1] == states[i + 1] && actions'[i] == actions[i];
      }
    }
    assert IsRun(d, states', actions');
  }

  lemma ReachableInv(d: Discipline, s: State)
    requires Reachable(d, s)
    ensures Inv(s)
  {
    var states, actions :| IsRun(d, states, actions) && states[|states| - 1] == s;
    RunKeepsInv(d, states, actions, |states| - 1);
  }

  lemma ReachableDeadlockFree(s: State, ts: set<Thread>)
    requires Reachable(STRICT, s)
    ensures !CircularWait(s, ts)
  {
    var states, actions :| IsRun(STRICT, states, actions) && states[|states| - 1] == s;
    DeadlockFreedom(states, actions, |states| - 1, ts);
  }
}
