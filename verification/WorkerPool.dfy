/**
 The thread pool as a step relation.  Every step is one region that runs under the pool lock, or
 one region under a queue's own lock; between steps any thread may run.  Any number of workers,
 queues, producers, pausers and drainers take part, with one thread that starts and stops the
 pool.  Condition variables are explicit: a thread in an `Asleep` phase has not been notified.
 */
module WorkerPool {
  import opened Counting
  import opened PoolWork

  /** What a drain() waits for, besides idle workers. */
  datatype Target = Everything | Only(q: QueueId)

  /** One call of pause() or drain() each. */
  datatype ClientPc =
    | PauseAsleep(inForce: bool)         // waiting on _wait_cond, not notified; its unpause() has not yet run
    | PauseAwake(inForce: bool)          // wants the pool lock to look again
    | Paused                             // pause() has returned, unpause() has not yet run
    | DrainAsleep(target: Target)
    | DrainAwake(target: Target)
    | Done

  datatype State = State(
    work: Work,                          // processing, the queues and the workers
    numThreads: nat,
    stopping: bool,                      // _stop
    pause: int,                          // _pause
    draining: int,                       // _draining
    workQueues: seq<QueueId>,
    cursor: nat,                         // next_work_queue
    clients: seq<ClientPc>)

  datatype Action =
    | Start
    | AddQueue(q: QueueId)
    | RemoveQueue(q: QueueId)
    | Submit(q: QueueId, x: Item, front: bool, woken: nat)
    | Round(w: nat, offset: nat)         // one pass of the worker loop, up to its next release of the lock
    | BeginProcess(w: nat)
    | EndProcess(w: nat)
    | FinishItem(w: nat)
    | WorkerTimeout(w: nat)
    | CallPause
    | CallDrain(target: Target)
    | Recheck(c: nat)
    | SpuriousWake(c: nat)
    | Unpause(c: nat)
    | StopBegin
    | StopEnd(cleared: set<QueueId>)

  // ---------- phases and wake-ups ----------

  predicate IsAsleep(pc: WorkerPc) {
    pc.Asleep?
  }

  /** Counted in _pause. */
  predicate Pausing(pc: ClientPc) {
    ((pc.PauseAsleep? || pc.PauseAwake?) && pc.inForce) || pc.Paused?
  }

  /** What the matching unpause() makes of a pause(): one that still waits goes on waiting. */
  function Unpaused(pc: ClientPc): (r: ClientPc) {
    match pc
    case PauseAsleep(_) => PauseAsleep(false)
    case PauseAwake(_) => PauseAwake(false)
    case _ => Done
  }

  predicate Draining(pc: ClientPc) {
    pc.DrainAsleep? || pc.DrainAwake?
  }

  function Woken(pc: WorkerPc): (r: WorkerPc) {
    if pc.Asleep? then Ready else pc
  }

  function WakeWorkers(ws: seq<WorkerPc>): (r: seq<WorkerPc>)
    ensures |r| == |ws| && forall i | 0 <= i < |ws| :: r[i] == Woken(ws[i])
  {
    seq(|ws|, i requires 0 <= i < |ws| => Woken(ws[i]))
  }

  function Roused(pc: ClientPc): (r: ClientPc) {
    match pc
    case PauseAsleep(inForce) => PauseAwake(inForce)
    case DrainAsleep(target) => DrainAwake(target)
    case _ => pc
  }

  function WakeClients(cs: seq<ClientPc>): (r: seq<ClientPc>)
    ensures |r| == |cs| && forall i | 0 <= i < |cs| :: r[i] == Roused(cs[i])
  {
    seq(|cs|, i requires 0 <= i < |cs| => Roused(cs[i]))
  }

  // ---------- the round-robin search ----------

  function ItemsOf(queues: map<QueueId, Queue>, q: QueueId): (items: seq<Item>) {
    if q in queues then queues[q].items else []
  }

  /** Position `k` places after `p` in a ring of `n`. */
  function Wrap(p: nat, k: nat, n: nat): (i: nat)
    requires p < n && k < n
    ensures i < n
  {
    if p + k < n then p + k else p + k - n
  }

  /** The queue `k` places after the cursor. */
  function QueueAt(s: State, k: nat): (q: QueueId)
    requires k < |s.workQueues|
  {
    s.workQueues[Wrap(s.cursor % |s.workQueues|, k, |s.workQueues|)]
  }

  /** The first non-empty queue from the cursor on is `k` places ahead. */
  ghost predicate FirstNonEmpty(s: State, k: nat) {
    && k < |s.workQueues|
    && ItemsOf(s.work.queues, QueueAt(s, k)) != []
    && forall j: nat | j < k :: ItemsOf(s.work.queues, QueueAt(s, j)) == []
  }

  ghost predicate AllEmpty(s: State) {
    forall q | q in s.workQueues :: ItemsOf(s.work.queues, q) == []
  }

  /** Where the cursor stands after a search that found nothing. */
  function CursorAfterMiss(cursor: nat, n: nat): (c: nat)
    requires n > 0
  {
    if cursor % n == 0 then n else cursor % n
  }

  // ---------- steps ----------

  function SetWorker(s: State, w: nat, pc: WorkerPc): (s': State)
    requires w < |s.work.workers|
  {
    s.(work := s.work.(workers := s.work.workers[w := pc]))
  }

  function SetClient(s: State, c: nat, pc: ClientPc): (s': State)
    requires c < |s.clients|
  {
    s.(clients := s.clients[c := pc])
  }

  /** The loop condition of pause() and drain() is false: the call may return. */
  predicate MayLeave(s: State, pc: ClientPc) {
    && s.work.processing == 0
    && (Draining(pc) && pc.target.Only? ==> ItemsOf(s.work.queues, pc.target.q) == [])
  }

  /** A pause() at its loop condition: return, or sleep. */
  function PauseDecides(s: State, inForce: bool): (pc: ClientPc) {
    if !MayLeave(s, PauseAwake(inForce)) then PauseAsleep(inForce) else if inForce then Paused else Done
  }

  function AddWorkers(k: Work, n: nat): (k': Work)
    decreases n
  {
    if n == 0 then k else AddWorkers(k.(workers := k.workers + [Ready]), n - 1)
  }

  /** How many threads start_threads has to create. */
  function Missing(s: State): (n: nat) {
    if |s.work.workers| < s.numThreads then s.numThreads - |s.work.workers| else 0
  }

  function Without(qs: seq<QueueId>, q: QueueId): (r: seq<QueueId>)
    ensures forall x | x in r :: x in qs
  {
    if qs == [] then [] else if qs[0] == q then qs[1..] else [qs[0]] + Without(qs[1..], q)
  }

  /** The worker will find an item in this round. */
  ghost predicate WillServe(s: State) {
    !s.stopping && s.pause == 0 && !AllEmpty(s)
  }

  ghost predicate Enabled(s: State, a: Action) {
    match a
    case Start => !s.stopping
    case AddQueue(q) => true
    case RemoveQueue(q) => true
    case Submit(q, x, front, woken) =>
      && q in s.work.queues
      // notify_one wakes some sleeping worker if there is one
      && (Count(s.work.workers, IsAsleep) > 0 ==> woken < |s.work.workers| && s.work.workers[woken].Asleep?)
    case Round(w, offset) =>
      && w < |s.work.workers| && s.work.workers[w].Ready?
      && (WillServe(s) ==> FirstNonEmpty(s, offset))
    case BeginProcess(w) => CanPop(s.work, w)
    case EndProcess(w) => CanPush(s.work, w)
    case FinishItem(w) => CanFinish(s.work, w)
    case WorkerTimeout(w) => w < |s.work.workers| && s.work.workers[w].Asleep?
    case CallPause => true
    case CallDrain(target) => true
    case Recheck(c) => c < |s.clients| && (s.clients[c].PauseAwake? || s.clients[c].DrainAwake?)
    case SpuriousWake(c) => c < |s.clients|
    case Unpause(c) => c < |s.clients| && Pausing(s.clients[c])
    case StopBegin => !s.stopping
    case StopEnd(cleared) => s.stopping && forall w | 0 <= w < |s.work.workers| :: s.work.workers[w].Exited?
  }

  /** The part of the worker loop that runs under the pool lock. */
  ghost function ApplyRound(s: State, w: nat, offset: nat): (s': State)
    requires Enabled(s, Round(w, offset))
  {
    var n := |s.workQueues|;
    if s.stopping then SetWorker(s, w, Exited)
    else if s.workQueues == [] || s.pause != 0 then SetWorker(s, w, Asleep)
    else if AllEmpty(s) then SetWorker(s.(cursor := CursorAfterMiss(s.cursor, n)), w, Asleep)
    else s.(work := Take(s.work, w, QueueAt(s, offset)), cursor := Wrap(s.cursor % n, offset, n) + 1)
  }

  ghost function Apply(s: State, a: Action): (s': State)
    requires Enabled(s, a)
  {
    match a
    case Start => s.(work := AddWorkers(s.work, Missing(s)))
    case AddQueue(q) =>
      // a queue registered again keeps its contents
      s.(workQueues := s.workQueues + [q],
         work := s.work.(queues := if q in s.work.queues then s.work.queues else s.work.queues[q := EMPTY_QUEUE]))
    case RemoveQueue(q) => s.(workQueues := Without(s.workQueues, q))
    case Submit(q, x, front, woken) =>
      var s1 := s.(work := Enqueue(s.work, q, x, front));
      if Count(s.work.workers, IsAsleep) > 0 then SetWorker(s1, woken, Ready) else s1
    case Round(w, offset) => ApplyRound(s, w, offset)
    case BeginProcess(w) => s.(work := Pop(s.work, w))
    case EndProcess(w) => s.(work := Push(s.work, w))
    case FinishItem(w) =>
      s.(work := Finish(s.work, w),
         clients := if s.pause != 0 || s.draining != 0 then WakeClients(s.clients) else s.clients)
    case WorkerTimeout(w) => SetWorker(s, w, Ready)
    case CallPause =>
      s.(pause := s.pause + 1, clients := s.clients + [PauseDecides(s, true)])
    case CallDrain(target) =>
      if MayLeave(s, DrainAwake(target)) then s.(clients := s.clients + [Done])
      else s.(draining := s.draining + 1, clients := s.clients + [DrainAsleep(target)])
    case Recheck(c) =>
      if s.clients[c].PauseAwake? then SetClient(s, c, PauseDecides(s, s.clients[c].inForce))
      else if MayLeave(s, s.clients[c]) then SetClient(s.(draining := s.draining - 1), c, Done)
      else SetClient(s, c, DrainAsleep(s.clients[c].target))
    case SpuriousWake(c) => SetClient(s, c, Roused(s.clients[c]))
    case Unpause(c) =>
      SetClient(s, c, Unpaused(s.clients[c])).(
        pause := s.pause - 1, work := s.work.(workers := WakeWorkers(s.work.workers)))
    case StopBegin => s.(stopping := true, work := s.work.(workers := WakeWorkers(s.work.workers)))
    case StopEnd(cleared) =>
      var registered := set q | q in s.workQueues && q in cleared;
      s.(stopping := false, work := ClearQueues(s.work, registered).(workers := []))
  }

  ghost predicate Initial(s: State) {
    s == State(Work(0, map[], []), s.numThreads, false, 0, 0, [], 0, [])
  }

  ghost predicate IsRun(states: seq<State>, actions: seq<Action>) {
    && |states| == |actions| + 1 && Initial(states[0])
    && forall i | 0 <= i < |actions| ::
         Enabled(states[i], actions[i]) && states[i + 1] == Apply(states[i], actions[i])
  }

  // ---------- the search finds what there is ----------

  /** Going once round the ring from any cursor visits every queue. */
  lemma EveryQueueIsAhead(s: State, i: nat) returns (k: nat)
    requires i < |s.workQueues|
    ensures k < |s.workQueues| && Wrap(s.cursor % |s.workQueues|, k, |s.workQueues|) == i
  {
    var n := |s.workQueues|;
    var p := s.cursor % n;
    k := if p <= i then i - p else i - p + n;
  }

  /** From any cursor value, the search finds a first non-empty queue exactly when there is one. */
  lemma SearchIsComplete(s: State)
    ensures AllEmpty(s) <==> !exists k: nat :: FirstNonEmpty(s, k)
  {
    if !AllEmpty(s) {
      var i := SomeNonEmpty(s);
      var k := EveryQueueIsAhead(s, i);
      var j := FirstUpTo(s, k);
      assert FirstNonEmpty(s, j);
    }
  }

  lemma SomeNonEmpty(s: State) returns (i: nat)
    requires !AllEmpty(s)
    ensures i < |s.workQueues| && ItemsOf(s.work.queues, s.workQueues[i]) != []
  {
    var q :| q in s.workQueues && ItemsOf(s.work.queues, q) != [];
    i :| 0 <= i < |s.workQueues| && s.workQueues[i] == q;
  }

  lemma {:induction false} FirstUpTo(s: State, k: nat) returns (j: nat)
    requires k < |s.workQueues| && ItemsOf(s.work.queues, QueueAt(s, k)) != []
    ensures j <= k && FirstNonEmpty(s, j)
  {
    if i: nat :| i < k && ItemsOf(s.work.queues, QueueAt(s, i)) != [] {
      j := FirstUpTo(s, i);
    } else {
      j := k;
    }
  }

  // ---------- invariants ----------

  ghost predicate Registered(s: State) {
    forall q | q in s.workQueues :: q in s.work.queues
  }

  /** The counters count the pausers and drainers; a pause that has returned finds the pool idle, and
      a pauser in force that sleeps un-notified still has something to wait for. */
  ghost predicate ClientInv(s: State) {
    && s.pause == Count(s.clients, Pausing)
    && s.draining == Count(s.clients, Draining)
    && (forall c | 0 <= c < |s.clients| && s.clients[c].Paused? :: s.work.processing == 0)
    && (forall c | 0 <= c < |s.clients| && s.clients[c] == PauseAsleep(true) :: s.work.processing > 0)
  }

  /** Any pauser sleeping un-notified still has something to wait for. */
  ghost predicate PausersSound(s: State) {
    forall c | 0 <= c < |s.clients| && s.clients[c].PauseAsleep? :: s.work.processing > 0
  }

  /** A drainer sleeping un-notified still has something to wait for. */
  ghost predicate DrainersSound(s: State) {
    forall c | 0 <= c < |s.clients| && s.clients[c].DrainAsleep? ::
      s.work.processing > 0 || (s.clients[c].target.Only? && ItemsOf(s.work.queues, s.clients[c].target.q) != [])
  }

  ghost predicate NothingInFlight(s: State) {
    forall w | 0 <= w < |s.work.workers| :: !InFlight(s.work.workers[w])
  }

  ghost predicate SomeAwake(s: State) {
    exists w :: 0 <= w < |s.work.workers| && !s.work.workers[w].Asleep?
  }

  /** Work that could be done now does not find all workers asleep un-notified. */
  ghost predicate NotStranded(s: State) {
    !s.stopping && s.pause == 0 && s.work.workers != [] && !AllEmpty(s) ==> SomeAwake(s)
  }

  /** No worker sleeps through a stop, and workers exit only in one. */
  ghost predicate StopInv(s: State) {
    forall w | 0 <= w < |s.work.workers| ::
      if s.stopping then !s.work.workers[w].Asleep? else !s.work.workers[w].Exited?
  }

  ghost predicate Inv(s: State) {
    Registered(s) && WorkInv(s.work) && ClientInv(s) && StopInv(s)
  }

  // ---------- preservation: work ----------

  lemma {:induction false} AddWorkersKeeps(k: Work, n: nat)
    requires WorkInv(k)
    ensures WorkInv(AddWorkers(k, n))
    decreases n
  {
    if n > 0 {
      NewWorkerKeeps(k);
      AddWorkersKeeps(k.(workers := k.workers + [Ready]), n - 1);
    }
  }

  lemma {:induction false} AddWorkersQueues(k: Work, n: nat)
    ensures AddWorkers(k, n).queues == k.queues && AddWorkers(k, n).processing == k.processing
    ensures |AddWorkers(k, n).workers| == |k.workers| + n
    ensures forall w | 0 <= w < |k.workers| + n ::
              AddWorkers(k, n).workers[w] == if w < |k.workers| then k.workers[w] else Ready
    decreases n
  {
    if n > 0 {
      AddWorkersQueues(k.(workers := k.workers + [Ready]), n - 1);
    }
  }

  lemma ServedCanBeTaken(s: State, w: nat, offset: nat)
    requires Registered(s) && Enabled(s, Round(w, offset)) && WillServe(s)
    ensures s.workQueues != [] && CanTake(s.work, w, QueueAt(s, offset))
  {
    assert QueueAt(s, offset) in s.workQueues;
  }

  lemma IdleWorkers(k: Work)
    requires WorkInv(k) && forall w | 0 <= w < |k.workers| :: k.workers[w].Exited?
    ensures k.processing == 0 && WorkInv(k.(workers := []))
  {
    CountPositive(k.workers, InFlight);
    forall q | q in k.queues ensures QueueInv(k.(workers := []), q) {
      assert QueueInv(k, q);
      NoneInPhase(k.workers, q);
    }
  }

  lemma SubmitSame(s: State, q: QueueId, x: Item, front: bool, woken: nat)
    requires Enabled(s, Submit(q, x, front, woken))
    ensures SameFlight(Enqueue(s.work, q, x, front), Apply(s, Submit(q, x, front, woken)).work)
  {
  }

  lemma SubmitKeepsWork(s: State, q: QueueId, x: Item, front: bool, woken: nat)
    requires WorkInv(s.work) && Enabled(s, Submit(q, x, front, woken))
    ensures WorkInv(Apply(s, Submit(q, x, front, woken)).work)
  {
    EnqueueKeeps(s.work, q, x, front);
    SubmitSame(s, q, x, front, woken);
    SameWorkKeeps(Enqueue(s.work, q, x, front), Apply(s, Submit(q, x, front, woken)).work);
  }

  lemma MissSame(s: State, w: nat, offset: nat)
    requires Enabled(s, Round(w, offset)) && !WillServe(s)
    ensures SameFlight(s.work, ApplyRound(s, w, offset).work)
  {
  }

  lemma RoundKeepsWork(s: State, w: nat, offset: nat)
    requires Registered(s) && WorkInv(s.work) && Enabled(s, Round(w, offset))
    ensures WorkInv(ApplyRound(s, w, offset).work)
  {
    if WillServe(s) {
      ServedCanBeTaken(s, w, offset);
      TakeKeeps(s.work, w, QueueAt(s, offset));
    } else {
      MissSame(s, w, offset);
      SameWorkKeeps(s.work, ApplyRound(s, w, offset).work);
    }
  }

  lemma StopEndKeepsWork(s: State, cleared: set<QueueId>)
    requires WorkInv(s.work) && Enabled(s, StopEnd(cleared))
    ensures WorkInv(Apply(s, StopEnd(cleared)).work) && s.work.processing == 0
  {
    var registered := set q | q in s.workQueues && q in cleared;
    ClearKeeps(s.work, registered);
    IdleWorkers(ClearQueues(s.work, registered));
  }

  /** Steps in which workers at most wake up. */
  predicate WakesAtMost(a: Action) {
    a.RemoveQueue? || a.WorkerTimeout? || a.CallPause? || a.CallDrain? || a.Recheck? || a.SpuriousWake?
    || a.Unpause? || a.StopBegin?
  }

  lemma WakeSame(s: State, a: Action)
    requires Enabled(s, a) && WakesAtMost(a)
    ensures SameFlight(s.work, Apply(s, a).work)
  {
  }

  lemma WorkKept(s: State, a: Action)
    requires Registered(s) && WorkInv(s.work) && Enabled(s, a)
    ensures WorkInv(Apply(s, a).work)
  {
    match a
    case Start => AddWorkersKeeps(s.work, Missing(s));
    case AddQueue(q) => if q !in s.work.queues { NewQueueKeeps(s.work, q); }
    case Submit(q, x, front, woken) => SubmitKeepsWork(s, q, x, front, woken);
    case Round(w, offset) => RoundKeepsWork(s, w, offset);
    case BeginProcess(w) => PopKeeps(s.work, w);
    case EndProcess(w) => PushKeeps(s.work, w);
    case FinishItem(w) => FinishKeeps(s.work, w);
    case StopEnd(cleared) => StopEndKeepsWork(s, cleared);
    case _ =>
      WakeSame(s, a);
      SameWorkKeeps(s.work, Apply(s, a).work);
  }

  lemma RegisteredKept(s: State, a: Action)
    requires Registered(s) && Enabled(s, a)
    ensures Registered(Apply(s, a))
  {
    if a.Start? {
      AddWorkersQueues(s.work, Missing(s));
    }
  }

  // ---------- preservation: clients ----------

  lemma NobodyIn(cs: seq<ClientPc>, p: ClientPc -> bool)
    requires Count(cs, p) == 0
    ensures forall c | 0 <= c < |cs| :: !p(cs[c])
  {
    CountPositive(cs, p);
  }

  /** A worker dequeues only while nobody is pausing. */
  lemma RoundKeepsClients(s: State, w: nat, offset: nat)
    requires Registered(s) && ClientInv(s) && Enabled(s, Round(w, offset))
    ensures ClientInv(ApplyRound(s, w, offset))
  {
    if WillServe(s) {
      ServedCanBeTaken(s, w, offset);
      NobodyIn(s.clients, Pausing);
      forall c | 0 <= c < |s.clients| ensures !s.clients[c].Paused? && s.clients[c] != PauseAsleep(true) {
        assert !Pausing(s.clients[c]);
      }
    }
  }

  /** The worker in flight is counted, so no pause has returned; and it wakes whoever sleeps. */
  lemma FinishKeepsClients(s: State, w: nat)
    requires FlightInv(s.work) && ClientInv(s) && Enabled(s, FinishItem(w))
    ensures ClientInv(Apply(s, FinishItem(w)))
  {
    var s' := Apply(s, FinishItem(w));
    assert InFlight(s.work.workers[w]);
    CountPositive(s.work.workers, InFlight);
    CountSame(s.clients, s'.clients, Pausing);
    CountSame(s.clients, s'.clients, Draining);
    if s.pause == 0 {
      NobodyIn(s.clients, Pausing);
      forall c | 0 <= c < |s.clients| ensures !s.clients[c].Paused? && s.clients[c] != PauseAsleep(true) {
        assert !Pausing(s.clients[c]);
      }
    }
  }

  /** A new call that starts in phase `pc`. */
  lemma NewClientKeeps(s: State, s': State, pc: ClientPc)
    requires ClientInv(s) && s'.clients == s.clients + [pc] && s'.work.processing == s.work.processing
    requires s'.pause == s.pause + (if Pausing(pc) then 1 else 0)
    requires s'.draining == s.draining + (if Draining(pc) then 1 else 0)
    requires (pc.Paused? ==> s.work.processing == 0) && (pc == PauseAsleep(true) ==> s.work.processing > 0)
    ensures ClientInv(s')
  {
    CountAppend(s.clients, pc, Pausing);
    CountAppend(s.clients, pc, Draining);
  }

  /** A call that moves on to phase `pc`. */
  lemma ClientMoveKeeps(s: State, s': State, c: nat, pc: ClientPc)
    requires ClientInv(s) && c < |s.clients| && s'.clients == s.clients[c := pc]
    requires s'.work.processing == s.work.processing
    requires s'.pause == s.pause - (if Pausing(s.clients[c]) then 1 else 0) + (if Pausing(pc) then 1 else 0)
    requires s'.draining == s.draining - (if Draining(s.clients[c]) then 1 else 0) + (if Draining(pc) then 1 else 0)
    requires (pc.Paused? ==> s.work.processing == 0) && (pc == PauseAsleep(true) ==> s.work.processing > 0)
    ensures ClientInv(s')
  {
    CountUpdate(s.clients, c, pc, Pausing);
    CountUpdate(s.clients, c, pc, Draining);
  }

  lemma RecheckKeepsClients(s: State, c: nat)
    requires FlightInv(s.work) && ClientInv(s) && Enabled(s, Recheck(c))
    ensures ClientInv(Apply(s, Recheck(c)))
  {
    ClientMoveKeeps(s, Apply(s, Recheck(c)), c, Apply(s, Recheck(c)).clients[c]);
  }

  lemma SpuriousWakeKeepsClients(s: State, c: nat)
    requires ClientInv(s) && Enabled(s, SpuriousWake(c))
    ensures ClientInv(Apply(s, SpuriousWake(c)))
  {
    ClientMoveKeeps(s, Apply(s, SpuriousWake(c)), c, Roused(s.clients[c]));
  }

  lemma ClientsKept(s: State, a: Action)
    requires Registered(s) && FlightInv(s.work) && ClientInv(s) && Enabled(s, a)
    ensures ClientInv(Apply(s, a))
  {
    match a
    case Start => AddWorkersQueues(s.work, Missing(s));
    case Round(w, offset) => RoundKeepsClients(s, w, offset);
    case FinishItem(w) => FinishKeepsClients(s, w);
    case CallPause => NewClientKeeps(s, Apply(s, a), PauseDecides(s, true));
    case CallDrain(target) =>
      NewClientKeeps(s, Apply(s, a), if MayLeave(s, DrainAwake(target)) then Done else DrainAsleep(target));
    case Recheck(c) => RecheckKeepsClients(s, c);
    case SpuriousWake(c) => SpuriousWakeKeepsClients(s, c);
    case Unpause(c) => ClientMoveKeeps(s, Apply(s, a), c, Unpaused(s.clients[c]));
    case _ =>
  }

  // ---------- preservation: pausers whose unpause() came early ----------

  /** The last worker in flight finishes and notifies nobody, although a pause() still sleeps: its
      unpause() has run already. */
  ghost predicate StrandsPauser(s: State, a: Action) {
    && a.FinishItem? && s.work.processing == 1 && s.pause == 0 && s.draining == 0
    && exists c :: 0 <= c < |s.clients| && s.clients[c].PauseAsleep?
  }

  /** That step, and no other, leaves a pauser asleep with nothing to wait for. */
  lemma PausersKept(s: State, a: Action)
    requires Registered(s) && FlightInv(s.work) && PausersSound(s) && Enabled(s, a)
    ensures PausersSound(Apply(s, a)) <==> !StrandsPauser(s, a)
  {
    match a
    case Start => AddWorkersQueues(s.work, Missing(s));
    case Round(w, offset) => if WillServe(s) { ServedCanBeTaken(s, w, offset); }
    case FinishItem(w) =>
      assert InFlight(s.work.workers[w]);
      CountPositive(s.work.workers, InFlight);
    case _ =>
  }

  // ---------- preservation: drainers ----------

  lemma FinishKeepsDrainers(s: State, w: nat)
    requires ClientInv(s) && Enabled(s, FinishItem(w))
    ensures DrainersSound(Apply(s, FinishItem(w)))
  {
    if s.draining == 0 {
      NobodyIn(s.clients, Draining);
      forall c | 0 <= c < |s.clients| ensures !s.clients[c].DrainAsleep? {
        assert !Draining(s.clients[c]);
      }
    }
  }

  lemma RoundKeepsDrainers(s: State, w: nat, offset: nat)
    requires Registered(s) && FlightInv(s.work) && DrainersSound(s) && Enabled(s, Round(w, offset))
    ensures DrainersSound(ApplyRound(s, w, offset))
  {
    if WillServe(s) {
      ServedCanBeTaken(s, w, offset);
    }
  }

  /** The end of a stop clears a queue on which a drainer sleeps: clearing notifies nobody. */
  ghost predicate StrandsDrainer(s: State, a: Action) {
    a.StopEnd? && exists c :: 0 <= c < |s.clients| && s.clients[c].DrainAsleep? && s.clients[c].target.Only?
                              && s.clients[c].target.q in s.workQueues && s.clients[c].target.q in a.cleared
  }

  lemma StopEndAndDrainers(s: State, cleared: set<QueueId>)
    requires FlightInv(s.work) && DrainersSound(s) && Enabled(s, StopEnd(cleared))
    ensures DrainersSound(Apply(s, StopEnd(cleared))) <==> !StrandsDrainer(s, StopEnd(cleared))
  {
    CountPositive(s.work.workers, InFlight);
    var s' := Apply(s, StopEnd(cleared));
    forall c | 0 <= c < |s.clients| && s.clients[c].DrainAsleep?
      ensures s.clients[c].target.Only?
      ensures ItemsOf(s'.work.queues, s.clients[c].target.q) == [] <==>
                s.clients[c].target.q in s.workQueues && s.clients[c].target.q in cleared
    {
    }
  }

  /** That step, and no other, leaves a drainer asleep with nothing to wait for. */
  lemma DrainersKept(s: State, a: Action)
    requires Registered(s) && FlightInv(s.work) && ClientInv(s) && DrainersSound(s) && Enabled(s, a)
    ensures DrainersSound(Apply(s, a)) <==> !StrandsDrainer(s, a)
  {
    match a
    case Start => AddWorkersQueues(s.work, Missing(s));
    case Round(w, offset) => RoundKeepsDrainers(s, w, offset);
    case FinishItem(w) => FinishKeepsDrainers(s, w);
    case StopEnd(cleared) => StopEndAndDrainers(s, cleared);
    case _ =>
  }

  // ---------- preservation: sleeping workers ----------

  /** A queue with items is registered while all workers sleep: registering notifies nobody. */
  ghost predicate StrandsWork(s: State, a: Action) {
    && a.AddQueue? && ItemsOf(s.work.queues, a.q) != []
    && !s.stopping && s.pause == 0 && s.work.workers != [] && !SomeAwake(s)
  }

  lemma SubmitNotStranded(s: State, q: QueueId, x: Item, front: bool, woken: nat)
    requires Enabled(s, Submit(q, x, front, woken))
    ensures NotStranded(Apply(s, Submit(q, x, front, woken)))
  {
    var s' := Apply(s, Submit(q, x, front, woken));
    CountPositive(s.work.workers, IsAsleep);
    if Count(s.work.workers, IsAsleep) > 0 {
      assert !s'.work.workers[woken].Asleep?;
    } else if s.work.workers != [] {
      assert !IsAsleep(s.work.workers[0]);
      assert !s'.work.workers[0].Asleep?;
    }
  }

  lemma RoundNotStranded(s: State, w: nat, offset: nat)
    requires Registered(s) && Enabled(s, Round(w, offset))
    ensures NotStranded(ApplyRound(s, w, offset))
  {
    if WillServe(s) {
      ServedCanBeTaken(s, w, offset);
      assert !ApplyRound(s, w, offset).work.workers[w].Asleep?;
    }
  }

  lemma StartNotStranded(s: State)
    requires NotStranded(s) && Enabled(s, Start)
    ensures NotStranded(Apply(s, Start))
  {
    AddWorkersQueues(s.work, Missing(s));
    var s' := Apply(s, Start);
    if Missing(s) > 0 {
      assert !s'.work.workers[|s.work.workers|].Asleep?;
    } else if w :| 0 <= w < |s.work.workers| && !s.work.workers[w].Asleep? {
      assert !s'.work.workers[w].Asleep?;
    }
  }

  lemma WakeAllNotStranded(s: State, a: Action)
    requires (a.Unpause? || a.StopBegin?) && Enabled(s, a)
    ensures NotStranded(Apply(s, a))
  {
    if s.work.workers != [] {
      assert !Apply(s, a).work.workers[0].Asleep?;
    }
  }

  lemma AddQueueNotStranded(s: State, q: QueueId)
    requires NotStranded(s)
    ensures NotStranded(Apply(s, AddQueue(q))) <==> !StrandsWork(s, AddQueue(q))
  {
    var s' := Apply(s, AddQueue(q));
    assert s'.workQueues[|s.workQueues|] == q;
    assert SomeAwake(s') <==> SomeAwake(s);
    assert forall x :: x in s'.workQueues <==> x in s.workQueues || x == q;
    assert forall x :: ItemsOf(s'.work.queues, x) == ItemsOf(s.work.queues, x);
    assert AllEmpty(s') <==> AllEmpty(s) && ItemsOf(s.work.queues, q) == [];
  }

  /** That step, and no other, leaves work to be done with all workers asleep. */
  lemma NotStrandedKept(s: State, a: Action)
    requires Registered(s) && ClientInv(s) && NotStranded(s) && Enabled(s, a)
    ensures NotStranded(Apply(s, a)) <==> !StrandsWork(s, a)
  {
    match a
    case Start => StartNotStranded(s);
    case AddQueue(q) => AddQueueNotStranded(s, q);
    case Submit(q, x, front, woken) => SubmitNotStranded(s, q, x, front, woken);
    case Round(w, offset) => RoundNotStranded(s, w, offset);
    case Unpause(c) => WakeAllNotStranded(s, a);
    case StopBegin => WakeAllNotStranded(s, a);
    case RemoveQueue(q) => assert SomeAwake(Apply(s, a)) <==> SomeAwake(s);
    case CallPause =>
    case CallDrain(target) => assert SomeAwake(Apply(s, a)) <==> SomeAwake(s);
    case Recheck(c) => assert SomeAwake(Apply(s, a)) <==> SomeAwake(s);
    case SpuriousWake(c) => assert SomeAwake(Apply(s, a)) <==> SomeAwake(s);
    case StopEnd(cleared) =>
    case _ => assert !Apply(s, a).work.workers[a.w].Asleep?;
  }

  lemma StopKept(s: State, a: Action)
    requires Registered(s) && StopInv(s) && Enabled(s, a)
    ensures StopInv(Apply(s, a))
  {
    match a
    case Start => AddWorkersQueues(s.work, Missing(s));
    case Round(w, offset) => if WillServe(s) { ServedCanBeTaken(s, w, offset); }
    case _ =>
  }

  lemma ApplyKeeps(s: State, a: Action)
    requires Inv(s) && Enabled(s, a)
    ensures Inv(Apply(s, a))
  {
    RegisteredKept(s, a);
    WorkKept(s, a);
    ClientsKept(s, a);
    StopKept(s, a);
  }

  lemma {:induction false} RunKeepsInv(states: seq<State>, actions: seq<Action>, i: nat)
    requires IsRun(states, actions) && i < |states|
    ensures Inv(states[i])
  {
    if i > 0 {
      RunKeepsInv(states, actions, i - 1);
      ApplyKeeps(states[i - 1], actions[i - 1]);
    }
  }

  // ---------- reachable states ----------

  /** Some run leads to the state. */
  ghost predicate Reachable(s: State) {
    exists states: seq<State>, actions: seq<Action> :: IsRun(states, actions) && states[|states| - 1] == s
  }

  lemma Begin(s: State)
    requires Initial(s)
    ensures Reachable(s)
  {
    var none: seq<Action> := [];
    assert IsRun([s], none) && [s][|[s]| - 1] == s;
  }

  /** One more step. */
  lemma Go(s: State, a: Action, s': State)
    requires Reachable(s) && Enabled(s, a) && Apply(s, a) == s'
    ensures Reachable(s')
  {
    var states: seq<State>, actions: seq<Action> :| IsRun(states, actions) && states[|states| - 1] == s;
    var states', actions' := states + [s'], actions + [a];
    forall i | 0 <= i < |actions'|
      ensures Enabled(states'[i], actions'[i]) && states'[i + 1] == Apply(states'[i], actions'[i])
    {
      if i < |actions| {
        assert states'[i] == states[i] && states'[i + 1] == states[i + 1] && actions'[i] == actions[i];
      }
    }
    assert IsRun(states', actions');
  }

  lemma ReachableInv(s: State)
    requires Reachable(s)
    ensures Inv(s)
  {
    var states: seq<State>, actions: seq<Action> :| IsRun(states, actions) && states[|states| - 1] == s;
    RunKeepsInv(states, actions, |states| - 1);
  }
}
