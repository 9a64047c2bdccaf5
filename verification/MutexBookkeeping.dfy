/**
 The ownership counters of a debug mutex.  `locked_count` and `locked_by` sit beside the pthread
 mutex and are written in separate steps after the acquire and before the release; other threads
 may read them at any moment.  Each step below is one load, one store, one atomic add or one
 pthread operation, and any number of threads interleave them.
 */
module MutexBookkeeping {

  type Thread = nat

  /** Condition variables used with the mutex. */
  type Cond = nat

  datatype Owner = Nobody | By(thread: Thread)

  /** What the owner is about to give the mutex up for. */
  datatype Exit = Unlock | CondWait

  datatype Pc =
    | Outside                  // not using the mutex
    | PostCheck                // owns it; about to assert that the count is zero
    | PostStore                // about to store its id
    | PostAdd                  // about to increment the count
    | Inside                   // between _post_lock and _pre_unlock
    | PreCheck(exit: Exit)     // about to assert that the count is one
    | PreTest(exit: Exit)      // about to test again that the count is one
    | PreStore(exit: Exit)     // about to store its id
    | PreSub(exit: Exit)       // about to decrement the count
    | Leaving(exit: Exit)      // counters done, pthread release next
    | Asleep                   // released by the condition wait, will take the mutex again
    | AskCount(inside: bool)   // is_locked_by_me: about to load the count
    | AskOwner(inside: bool)   // is_locked_by_me: saw a positive count, about to compare the id

  datatype State = State(
    count: int,                // locked_count
    lockedBy: Owner,           // locked_by
    holder: Owner,             // who really owns the pthread mutex
    waiters: set<Cond>,        // the condition variables whose waiter_mutex is this mutex
    pcs: map<Thread, Pc>,
    fault: bool)               // an ASSERT fired, or is_locked_by_me answered wrongly

  datatype Action =
    | Acquire(t: Thread)       // lock, try_lock, or the retake that ends a condition wait
    | Step(t: Thread)          // the next step of the thread's own program
    | StartUnlock(t: Thread)
    | StartWait(t: Thread, cv: Cond)
    | Notify(t: Thread, cv: Cond)
    | Ask(t: Thread)

  function PcOf(s: State, t: Thread): (pc: Pc) {
    if t in s.pcs then s.pcs[t] else Outside
  }

  function At(s: State, t: Thread, pc: Pc): (s': State) {
    s.(pcs := s.pcs[t := pc])
  }

  function Check(s: State, ok: bool): (s': State) {
    s.(fault := s.fault || !ok)
  }

  ghost predicate Enabled(s: State, a: Action) {
    match a
    case Acquire(t) => (PcOf(s, t).Outside? || PcOf(s, t).Asleep?) && s.holder.Nobody?
    case StartUnlock(t) => PcOf(s, t).Inside?
    case StartWait(t, cv) => PcOf(s, t).Inside?
    case Notify(t, cv) => PcOf(s, t).Inside? || PcOf(s, t).Outside?
    case Ask(t) => PcOf(s, t).Inside? || PcOf(s, t).Outside?
    case Step(t) => !PcOf(s, t).Outside? && !PcOf(s, t).Inside? && !PcOf(s, t).Asleep?
  }

  ghost function Apply(s: State, a: Action): (s': State)
    requires Enabled(s, a)
  {
    match a
    case Acquire(t) => At(s.(holder := By(t)), t, PostCheck)
    case StartUnlock(t) => At(s, t, PreCheck(Unlock))
    case StartWait(t, cv) => At(Check(s, s.count > 0).(waiters := s.waiters + {cv}), t, PreCheck(CondWait))
    case Notify(t, cv) => Check(s, cv in s.waiters ==> s.count > 0)
    case Ask(t) => At(s, t, AskCount(PcOf(s, t).Inside?))
    case Step(t) =>
      match PcOf(s, t)
      case PostCheck => At(Check(s, s.count == 0), t, PostStore)
      case PostStore => At(s.(lockedBy := By(t)), t, PostAdd)
      case PostAdd => At(s.(count := s.count + 1), t, Inside)
      case PreCheck(exit) => At(Check(s, s.count == 1), t, PreTest(exit))
      case PreTest(exit) => At(s, t, if s.count == 1 then PreStore(exit) else PreSub(exit))
      case PreStore(exit) => At(s.(lockedBy := By(t)), t, PreSub(exit))
      case PreSub(exit) => At(s.(count := s.count - 1), t, Leaving(exit))
      case Leaving(exit) => At(s.(holder := Nobody), t, if exit.Unlock? then Outside else Asleep)
      case AskCount(inside) =>
        if s.count > 0 then At(s, t, AskOwner(inside))
        else At(Check(s, !inside), t, if inside then Inside else Outside)
      case AskOwner(inside) =>
        At(Check(s, (s.lockedBy == By(t)) == inside), t, if inside then Inside else Outside)
      case _ => s
  }

  ghost predicate Initial(s: State) {
    s == State(0, Nobody, Nobody, {}, map[], false)
  }

  ghost predicate IsRun(states: seq<State>, actions: seq<Action>) {
    && |states| == |actions| + 1 && Initial(states[0])
    && forall i | 0 <= i < |actions| ::
         Enabled(states[i], actions[i]) && states[i + 1] == Apply(states[i], actions[i])
  }

  // ---------- the invariant ----------

  /** The thread is between _post_lock and _pre_unlock, so to speak: its increment is in the count. */
  predicate Counted(pc: Pc) {
    match pc
    case Inside => true
    case PreCheck(_) => true
    case PreTest(_) => true
    case PreStore(_) => true
    case PreSub(_) => true
    case AskCount(inside) => inside
    case AskOwner(inside) => inside
    case _ => false
  }

  predicate Owning(pc: Pc) {
    Counted(pc) || pc.PostCheck? || pc.PostStore? || pc.PostAdd? || pc.Leaving?
  }

  ghost predicate Inv(s: State) {
    && (forall t :: Owning(PcOf(s, t)) <==> s.holder == By(t))
    && (s.count == if s.holder.By? && Counted(PcOf(s, s.holder.thread)) then 1 else 0)
    && (s.count == 1 ==> s.lockedBy == s.holder)
    && (forall t :: PcOf(s, t).PostAdd? ==> s.lockedBy == By(t))
    && (forall t :: PcOf(s, t) == AskOwner(false) ==> s.lockedBy != By(t))
  }

  lemma OwnStepKeeps(s: State, t: Thread)
    requires Inv(s) && Enabled(s, Step(t))
    ensures Inv(Apply(s, Step(t)))
  {
    var s' := Apply(s, Step(t));
    forall u ensures Owning(PcOf(s', u)) <==> s'.holder == By(u) {
      assert Owning(PcOf(s, u)) <==> s.holder == By(u);
    }
    assert Owning(PcOf(s, t)) <==> s.holder == By(t);
  }

  lemma ApplyKeeps(s: State, a: Action)
    requires Inv(s) && Enabled(s, a)
    ensures Inv(Apply(s, a))
  {
    if a.Step? {
      OwnStepKeeps(s, a.t);
    } else {
      var s' := Apply(s, a);
      forall u ensures Owning(PcOf(s', u)) <==> s'.holder == By(u) {
        assert Owning(PcOf(s, u)) <==> s.holder == By(u);
      }
      assert Owning(PcOf(s, a.t)) <==> s.holder == By(a.t);
    }
  }

  lemma {:induction false} RunKeepsInv(states: seq<State>, actions: seq<Action>, i: nat)
    requires IsRun(states, actions) && i < |states|
    ensures Inv(states[i])
  {
    if i > 0 {
      RunKeepsInv(states, actions, i - 1);
      ApplyKeeps(states[i - 1], actions[i - 1]);
    }
  }

  // ---------- what the counters say ----------

  ghost predicate SomeCounted(s: State) {
    exists t :: Counted(PcOf(s, t))
  }

  lemma CountedMeansCount(s: State)
    requires Inv(s)
    ensures s.count == (if SomeCounted(s) then 1 else 0)
    ensures forall t | Counted(PcOf(s, t)) :: s.lockedBy == s.holder == By(t)
  {
    forall t | Counted(PcOf(s, t)) ensures s.count == 1 && s.lockedBy == s.holder == By(t) {
      assert Owning(PcOf(s, t)) <==> s.holder == By(t);
    }
  }

  /** In every state of every run the count is one exactly while some thread, which then owns the mutex
      and is named in locked_by, is between _post_lock and _pre_unlock; otherwise it is zero. */
  lemma CountersAgree(states: seq<State>, actions: seq<Action>, i: nat)
    requires IsRun(states, actions) && i < |states|
    ensures states[i].count == (if SomeCounted(states[i]) then 1 else 0)
    ensures forall t | Counted(PcOf(states[i], t)) :: states[i].lockedBy == states[i].holder == By(t)
  {
    RunKeepsInv(states, actions, i);
    CountedMeansCount(states[i]);
  }

  /** A notify on a condition variable that remembers the mutex, while nobody has it. */
  ghost predicate NotifiesUnlocked(s: State, a: Action) {
    a.Notify? && a.cv in s.waiters && !SomeCounted(s)
  }

  /** That step, and no other, fires an ASSERT or gives a wrong answer to is_locked_by_me. */
  lemma FaultStep(s: State, a: Action)
    requires Inv(s) && Enabled(s, a)
    ensures Apply(s, a).fault <==> s.fault || NotifiesUnlocked(s, a)
  {
    CountedMeansCount(s);
    assert Owning(PcOf(s, a.t)) <==> s.holder == By(a.t);
    if PcOf(s, a.t).Inside? {
      assert Counted(PcOf(s, a.t));
    }
  }

  /** Up to any point of a run an ASSERT has fired, or is_locked_by_me has been wrong, if and only if
      somebody has notified a condition variable whose mutex nobody had. */
  lemma {:induction false} FaultsExactly(states: seq<State>, actions: seq<Action>, n: nat)
    requires IsRun(states, actions) && n < |states|
    ensures states[n].fault <==> exists j :: 0 <= j < n && NotifiesUnlocked(states[j], actions[j])
  {
    if n > 0 {
      FaultsExactly(states, actions, n - 1);
      RunKeepsInv(states, actions, n - 1);
      FaultStep(states[n - 1], actions[n - 1]);
    }
  }

  /** So nothing fires as long as threads notify with the mutex in hand. */
  lemma {:induction false} NoFaultWithMutexHeld(states: seq<State>, actions: seq<Action>, n: nat)
    requires IsRun(states, actions) && n < |states|
    requires forall j | 0 <= j < n && actions[j].Notify? :: PcOf(states[j], actions[j].t).Inside?
    ensures !states[n].fault
  {
    FaultsExactly(states, actions, n);
    forall j | 0 <= j < n ensures !NotifiesUnlocked(states[j], actions[j]) {
      if actions[j].Notify? {
        assert Counted(PcOf(states[j], actions[j].t));
      }
    }
  }

  // ---------- several steps of one thread ----------

  /** Some run leads to the state. */
  ghost predicate Reachable(s: State) {
    exists states: seq<State>, actions: seq<Action> :: IsRun(states, actions) && states[|states| - 1] == s
  }

  lemma Begin(s: State)
    requires Initial(s)
    ensures Reachable(s)
  {
    var none: seq<Action> := [];
    assert IsRun([s], none) && [s][|[s]| - 1] == s;
  }

  lemma Go(s: State, a: Action)
    requires Reachable(s) && Enabled(s, a)
    ensures Reachable(Apply(s, a))
  {
    var states: seq<State>, actions: seq<Action> :| IsRun(states, actions) && states[|states| - 1] == s;
    var states', actions' := states + [Apply(s, a)], actions + [a];
    forall i | 0 <= i < |actions'|
      ensures Enabled(states'[i], actions'[i]) && states'[i + 1] == Apply(states'[i], actions'[i])
    {
      if i < |actions| {
        assert states'[i] == states[i] && states'[i + 1] == states[i + 1] && actions'[i] == actions[i];
      }
    }
    assert IsRun(states', actions') && states'[|states'| - 1] == Apply(s, a);
  }

  lemma ReachableInv(s: State)
    requires Reachable(s)
    ensures Inv(s)
  {
    var states: seq<State>, actions: seq<Action> :| IsRun(states, actions) && states[|states| - 1] == s;
    RunKeepsInv(states, actions, |states| - 1);
  }

  /** The next n steps of the thread's own program, with nobody in between. */
  ghost function Steps(s: State, t: Thread, n: nat): (s': State)
    decreases n
  {
    if n == 0 || !Enabled(s, Step(t)) then s else Steps(Apply(s, Step(t)), t, n - 1)
  }

  lemma {:induction false} GoSteps(s: State, t: Thread, n: nat)
    requires Reachable(s)
    ensures Reachable(Steps(s, t, n))
    decreases n
  {
    if n > 0 && Enabled(s, Step(t)) {
      Go(s, Step(t));
      GoSteps(Apply(s, Step(t)), t, n - 1);
    }
  }

  /** The three steps of _post_lock leave the thread inside and counted. */
  lemma PostLockSteps(s: State, t: Thread)
    requires Inv(s) && PcOf(s, t).PostCheck?
    ensures s.count == 0 && Steps(s, t, 3) == At(s.(count := 1, lockedBy := By(t)), t, Inside)
  {
    assert Owning(PcOf(s, t)) <==> s.holder == By(t);
    var s1 := Apply(s, Step(t));
    var s2 := Apply(s1, Step(t));
    var s3 := Apply(s2, Step(t));
    assert Steps(s, t, 3) == Steps(s1, t, 2) == Steps(s2, t, 1) == Steps(s3, t, 0) == s3;
  }

  /** The four steps of _pre_unlock take the thread's increment back. */
  lemma PreUnlockSteps(s: State, t: Thread)
    requires Inv(s) && PcOf(s, t).PreCheck?
    ensures s.count == 1
    ensures Steps(s, t, 4) == At(s.(count := 0, lockedBy := By(t)), t, Leaving(PcOf(s, t).exit))
  {
    assert Owning(PcOf(s, t)) <==> s.holder == By(t);
    var s1 := Apply(s, Step(t));
    var s2 := Apply(s1, Step(t));
    var s3 := Apply(s2, Step(t));
    var s4 := Apply(s3, Step(t));
    assert Steps(s, t, 4) == Steps(s1, t, 3) == Steps(s2, t, 2) == Steps(s3, t, 1) == Steps(s4, t, 0) == s4;
  }

  /** An uncontended acquire. */
  ghost function AfterLock(s: State, t: Thread): (s': State) {
    At(s.(count := 1, lockedBy := By(t), holder := By(t)), t, Inside)
  }

  /** A release, or the release that begins a condition wait. */
  ghost function AfterRelease(s: State, t: Thread, exit: Exit): (s': State) {
    At(s.(count := 0, lockedBy := By(t), holder := Nobody), t, if exit.Unlock? then Outside else Asleep)
  }

  lemma LockSteps(s: State, t: Thread)
    requires Reachable(s) && Enabled(s, Acquire(t))
    ensures Steps(Apply(s, Acquire(t)), t, 3) == AfterLock(s, t) && Reachable(AfterLock(s, t)) && s.count == 0
  {
    Go(s, Acquire(t));
    ReachableInv(Apply(s, Acquire(t)));
    PostLockSteps(Apply(s, Acquire(t)), t);
    GoSteps(Apply(s, Acquire(t)), t, 3);
  }

  lemma ReleaseSteps(s: State, t: Thread)
    requires Reachable(s) && PcOf(s, t).PreCheck?
    ensures s.count == 1 && Steps(s, t, 5) == AfterRelease(s, t, PcOf(s, t).exit)
    ensures Reachable(AfterRelease(s, t, PcOf(s, t).exit))
  {
    ReachableInv(s);
    PreUnlockSteps(s, t);
    StepsAdd(s, t, 4);
    GoSteps(s, t, 5);
  }

  lemma {:induction false} StepsAdd(s: State, t: Thread, n: nat)
    ensures Steps(s, t, n + 1) == Steps(Steps(s, t, n), t, 1)
    decreases n
  {
    if n > 0 && Enabled(s, Step(t)) {
      StepsAdd(Apply(s, Step(t)), t, n - 1);
    }
  }

  /** A notify without the mutex can fire the ASSERT: thread 0 locks and waits, then thread 1 notifies. */
  lemma UnlockedNotifyFaults()
    ensures exists s :: Reachable(s) && s.fault
  {
    var s0 := State(0, Nobody, Nobody, {}, map[], false);
    Begin(s0);
    LockSteps(s0, 0);
    var s1 := AfterLock(s0, 0);
    Go(s1, StartWait(0, 0));
    var s2 := Apply(s1, StartWait(0, 0));
    ReleaseSteps(s2, 0);
    var s3 := AfterRelease(s2, 0, CondWait);
    Go(s3, Notify(1, 0));
  }

  // ---------- the mutex as an object ----------

  /** The two fields, beside the phases of all threads.  Each method runs without interference; it is
      proved equal to the steps above, and its ASSERTs to hold. */
  class DebugMutex {
    var count: int
    var lockedBy: Owner
    var holder: Owner          // the pthread mutex itself
    ghost var waiters: set<Cond>
    ghost var pcs: map<Thread, Pc>

    ghost function View(): (s: State)
      reads this
    {
      State(count, lockedBy, holder, waiters, pcs, false)
    }

    /** Some run without a fired ASSERT leads to the state of the object. */
    ghost predicate Valid()
      reads this
    {
      Reachable(View())
    }

    constructor ()
      ensures Valid() && Initial(View())
    {
      count, lockedBy, holder, waiters, pcs := 0, Nobody, Nobody, {}, map[];
      new;
      Begin(View());
    }

    /** The pthread mutex has just been acquired for `me`; `ok` is the ASSERT of _post_lock. */
    method PostLock(me: Thread) returns (ok: bool)
      requires Valid() && PcOf(View(), me).PostCheck?
      modifies this
      ensures ok && Valid() && View() == Steps(old(View()), me, 3) && PcOf(View(), me).Inside?
      ensures count == 1 && lockedBy == holder == By(me)
    {
      ReachableInv(View());
      PostLockSteps(View(), me);
      GoSteps(View(), me, 3);
      assert Owning(PcOf(View(), me)) <==> holder == By(me);
      ok := count == 0;
      lockedBy := By(me);
      count := count + 1;
      pcs := pcs[me := Inside];
    }

    /** `ok` is the ASSERT of _pre_unlock. */
    method PreUnlock(me: Thread) returns (ok: bool)
      requires Valid() && PcOf(View(), me).PreCheck?
      modifies this
      ensures ok && Valid() && View() == Steps(old(View()), me, 4)
      ensures View() == At(old(View()).(count := 0, lockedBy := By(me)), me, Leaving(old(PcOf(View(), me).exit)))
    {
      ReachableInv(View());
      PreUnlockSteps(View(), me);
      GoSteps(View(), me, 4);
      ok := count == 1;
      if count == 1 {
        lockedBy := By(me);
      }
      count := count - 1;
      pcs := pcs[me := Leaving(PcOf(View(), me).exit)];
    }

    /** try_lock, and lock once the mutex is free: succeeds if and only if nobody owns the mutex. */
    method TryLock(me: Thread) returns (locked: bool, ok: bool)
      requires Valid() && (PcOf(View(), me).Outside? || PcOf(View(), me).Asleep?)
      modifies this
      ensures ok && Valid() && (locked <==> old(holder).Nobody?)
      ensures View() == if locked then AfterLock(old(View()), me) else old(View())
    {
      locked, ok := holder.Nobody?, true;
      if locked {
        LockSteps(View(), me);
        Go(View(), Acquire(me));
        holder, pcs := By(me), pcs[me := PostCheck];
        ok := PostLock(me);
      }
    }

    /** unlock: the owner leaves, and what lock() did to the mutex is undone. */
    method Unlock(me: Thread) returns (ok: bool)
      requires Valid() && PcOf(View(), me).Inside?
      modifies this
      ensures ok && Valid() && View() == AfterRelease(old(View()), me, Exit.Unlock)
    {
      Go(View(), StartUnlock(me));
      pcs := pcs[me := PreCheck(Exit.Unlock)];
      ReleaseSteps(View(), me);
      ok := PreUnlock(me);
      holder, pcs := Nobody, pcs[me := Outside];
      assert pcs == old(pcs)[me := Outside];
    }

    /** Two loads; the answer is whether the caller is between _post_lock and _pre_unlock. */
    method IsLockedByMe(me: Thread) returns (mine: bool)
      requires Valid()
      requires PcOf(View(), me).Inside? || PcOf(View(), me).Outside?
      ensures mine <==> PcOf(View(), me).Inside?
    {
      ReachableInv(View());
      CountedMeansCount(View());
      assert PcOf(View(), me).Inside? ==> Counted(PcOf(View(), me));
      assert Owning(PcOf(View(), me)) <==> holder == By(me);
      mine := count > 0;
      if mine {
        mine := lockedBy == By(me);
      }
    }
  }

  /** A condition variable and the mutex it was last used with. */
  class ConditionVariable {
    const id: Cond
    var waiterMutex: DebugMutex?

    /** The mutex knows whether it is remembered here. */
    ghost predicate Agrees(m: DebugMutex)
      reads this, m
    {
      waiterMutex == m <==> id in m.waiters
    }

    constructor (id: Cond)
      ensures this.id == id && waiterMutex == null
    {
      this.id, waiterMutex := id, null;
    }

    /** wait() up to and including the release; fails if and only if another mutex was used before. */
    method BeginWait(m: DebugMutex, me: Thread) returns (ok: bool)
      requires m.Valid() && Agrees(m) && PcOf(m.View(), me).Inside?
      modifies this, m
      ensures ok <==> old(waiterMutex) == null || old(waiterMutex) == m
      ensures m.Valid() && Agrees(m)
      ensures ok ==> m.View() == AfterRelease(old(m.View()), me, CondWait).(waiters := old(m.waiters) + {id})
      ensures !ok ==> m.View() == old(m.View()) && waiterMutex == old(waiterMutex)
    {
      if waiterMutex != null && waiterMutex != m {
        return false;
      }
      ReachableInv(m.View());
      CountedMeansCount(m.View());
      assert Counted(PcOf(m.View(), me));
      Go(m.View(), StartWait(me, id));
      waiterMutex := m;
      ok := m.count > 0;
      m.waiters, m.pcs := m.waiters + {id}, m.pcs[me := PreCheck(CondWait)];
      ReleaseSteps(m.View(), me);
      var asserted := m.PreUnlock(me);
      ok := ok && asserted;
      m.holder, m.pcs := Nobody, m.pcs[me := Asleep];
      assert m.pcs == old(m.pcs)[me := Asleep];
    }

    /** wait() once pthread has the mutex again for the caller: back to where BeginWait began. */
    method EndWait(m: DebugMutex, me: Thread) returns (ok: bool)
      requires m.Valid() && PcOf(m.View(), me).Asleep? && m.holder.Nobody?
      modifies m
      ensures ok && m.Valid() && m.View() == AfterLock(old(m.View()), me)
    {
      var locked;
      locked, ok := m.TryLock(me);
    }

    /** The ASSERT of notify_one and notify_all holds if and only if the condition variable was never
        waited on, or somebody, not necessarily the caller, has its mutex. */
    method MayNotify() returns (ok: bool)
      requires waiterMutex != null ==> waiterMutex.Valid()
      ensures ok <==> waiterMutex == null || SomeCounted(waiterMutex.View())
    {
      if waiterMutex == null {
        return true;
      }
      ReachableInv(waiterMutex.View());
      CountedMeansCount(waiterMutex.View());
      return waiterMutex.count > 0;
    }
  }
}
