/**
 Work moving through the pool: user queue, to_process, _process, to_finish, _process_finish.
 Workers of the same queue share its two hand-off lists, so an item may be processed or finished
 by a different worker than the one that dequeued it.
 */
module PoolWork {
  import opened Counting

  /** Work items; the pool only moves them around. */
  type Item(==, !new)

  type QueueId = nat

  datatype WorkerPc =
    | Ready                              // wants the pool lock for its next round
    | Dequeued(q: QueueId)               // took an item, lock released, not yet in _process
    | Running(q: QueueId, item: Item)    // in _process
    | Pushed(q: QueueId)                 // appended to to_finish, wants the pool lock to finish
    | Asleep                             // waiting on _cond, not notified
    | Exited

  /** Everything that ever happened on a queue. */
  datatype History = History(
    enqueued: multiset<Item>,
    dequeued: seq<Item>,                 // in the order they left the user queue
    started: seq<Item>,                  // in the order _process was called
    completed: seq<Item>,                // in the order _process returned
    finished: seq<Item>,                 // in the order _process_finish was called
    discarded: multiset<Item>)           // removed by _clear

  datatype Queue = Queue(items: seq<Item>, toProcess: seq<Item>, toFinish: seq<Item>, past: History)

  datatype Work = Work(processing: int, queues: map<QueueId, Queue>, workers: seq<WorkerPc>)

  const EMPTY_QUEUE := Queue([], [], [], History(multiset{}, [], [], [], [], multiset{}))

  // ---------- phases ----------

  predicate InFlight(pc: WorkerPc) {
    pc.Dequeued? || pc.Running? || pc.Pushed?
  }

  function AtDequeued(q: QueueId): (p: WorkerPc -> bool) {
    pc => pc == Dequeued(q)
  }

  function AtPushed(q: QueueId): (p: WorkerPc -> bool) {
    pc => pc == Pushed(q)
  }

  function RunningItem(q: QueueId): (f: WorkerPc -> multiset<Item>) {
    (pc: WorkerPc) => if pc.Running? && pc.q == q then multiset{pc.item} else multiset{}
  }

  // ---------- what happens to one queue ----------

  function Enqueued(queue: Queue, x: Item, front: bool): (r: Queue) {
    queue.(items := if front then [x] + queue.items else queue.items + [x],
           past := queue.past.(enqueued := queue.past.enqueued + multiset{x}))
  }

  function TakenOut(queue: Queue): (r: Queue)
    requires queue.items != []
  {
    queue.(items := queue.items[1..], toProcess := queue.toProcess + [queue.items[0]],
           past := queue.past.(dequeued := queue.past.dequeued + [queue.items[0]]))
  }

  function Popped(queue: Queue): (r: Queue)
    requires queue.toProcess != []
  {
    queue.(toProcess := queue.toProcess[1..],
           past := queue.past.(started := queue.past.started + [queue.toProcess[0]]))
  }

  function PushedBack(queue: Queue, u: Item): (r: Queue) {
    queue.(toFinish := queue.toFinish + [u], past := queue.past.(completed := queue.past.completed + [u]))
  }

  function Finished(queue: Queue): (r: Queue)
    requires queue.toFinish != []
  {
    queue.(toFinish := queue.toFinish[1..],
           past := queue.past.(finished := queue.past.finished + [queue.toFinish[0]]))
  }

  function Cleared(queue: Queue): (r: Queue) {
    queue.(items := [], past := queue.past.(discarded := queue.past.discarded + multiset(queue.items)))
  }

  /** One entry in to_process and to_finish for each worker in the matching phase, items handed on
      in order, and every item ever enqueued in exactly one place. */
  ghost predicate QueueOk(queue: Queue, dequeued: nat, pushed: nat, running: multiset<Item>) {
    && |queue.toProcess| == dequeued
    && |queue.toFinish| == pushed
    && queue.past.dequeued == queue.past.started + queue.toProcess
    && queue.past.completed == queue.past.finished + queue.toFinish
    && multiset(queue.past.started) == multiset(queue.past.completed) + running
    && queue.past.enqueued == multiset(queue.items) + multiset(queue.past.dequeued) + queue.past.discarded
  }

  lemma EnqueuedOk(queue: Queue, dequeued: nat, pushed: nat, running: multiset<Item>, x: Item, front: bool)
    requires QueueOk(queue, dequeued, pushed, running)
    ensures QueueOk(Enqueued(queue, x, front), dequeued, pushed, running)
  {
  }

  lemma TakenOutOk(queue: Queue, dequeued: nat, pushed: nat, running: multiset<Item>)
    requires QueueOk(queue, dequeued, pushed, running) && queue.items != []
    ensures QueueOk(TakenOut(queue), dequeued + 1, pushed, running)
  {
    assert queue.items == [queue.items[0]] + queue.items[1..];
  }

  lemma PoppedOk(queue: Queue, dequeued: nat, pushed: nat, running: multiset<Item>)
    requires QueueOk(queue, dequeued, pushed, running) && queue.toProcess != []
    ensures QueueOk(Popped(queue), dequeued - 1, pushed, running + multiset{queue.toProcess[0]})
  {
    assert queue.toProcess == [queue.toProcess[0]] + queue.toProcess[1..];
  }

  lemma PushedBackOk(queue: Queue, dequeued: nat, pushed: nat, running: multiset<Item>, u: Item)
    requires QueueOk(queue, dequeued, pushed, running + multiset{u})
    ensures QueueOk(PushedBack(queue, u), dequeued, pushed + 1, running)
  {
  }

  lemma FinishedOk(queue: Queue, dequeued: nat, pushed: nat, running: multiset<Item>)
    requires QueueOk(queue, dequeued, pushed, running) && queue.toFinish != []
    ensures QueueOk(Finished(queue), dequeued, pushed - 1, running)
  {
    assert queue.toFinish == [queue.toFinish[0]] + queue.toFinish[1..];
  }

  lemma ClearedOk(queue: Queue, dequeued: nat, pushed: nat, running: multiset<Item>)
    requires QueueOk(queue, dequeued, pushed, running)
    ensures QueueOk(Cleared(queue), dequeued, pushed, running)
  {
  }

  // ---------- what happens to all the work ----------

  function Move(k: Work, w: nat, pc: WorkerPc, q: QueueId, queue: Queue, delta: int): (k': Work)
    requires w < |k.workers|
  {
    Work(k.processing + delta, k.queues[q := queue], k.workers[w := pc])
  }

  predicate CanTake(k: Work, w: nat, q: QueueId) {
    w < |k.workers| && k.workers[w].Ready? && q in k.queues && k.queues[q].items != []
  }

  /** _void_dequeue found an item: under the pool lock and the queue's lock. */
  function Take(k: Work, w: nat, q: QueueId): (k': Work)
    requires CanTake(k, w, q)
  {
    Move(k, w, Dequeued(q), q, TakenOut(k.queues[q]), 1)
  }

  predicate CanPop(k: Work, w: nat) {
    && w < |k.workers| && k.workers[w].Dequeued? && k.workers[w].q in k.queues
    && k.queues[k.workers[w].q].toProcess != []
  }

  /** The first half of _void_process, under the queue's lock alone. */
  function Pop(k: Work, w: nat): (k': Work)
    requires CanPop(k, w)
  {
    var q := k.workers[w].q;
    Move(k, w, Running(q, k.queues[q].toProcess[0]), q, Popped(k.queues[q]), 0)
  }

  predicate CanPush(k: Work, w: nat) {
    w < |k.workers| && k.workers[w].Running? && k.workers[w].q in k.queues
  }

  /** The second half of _void_process, after _process has returned. */
  function Push(k: Work, w: nat): (k': Work)
    requires CanPush(k, w)
  {
    var q := k.workers[w].q;
    Move(k, w, Pushed(q), q, PushedBack(k.queues[q], k.workers[w].item), 0)
  }

  predicate CanFinish(k: Work, w: nat) {
    && w < |k.workers| && k.workers[w].Pushed? && k.workers[w].q in k.queues
    && k.queues[k.workers[w].q].toFinish != []
  }

  /** _void_process_finish, back under the pool lock. */
  function Finish(k: Work, w: nat): (k': Work)
    requires CanFinish(k, w)
  {
    var q := k.workers[w].q;
    Move(k, w, Ready, q, Finished(k.queues[q]), -1)
  }

  function Enqueue(k: Work, q: QueueId, x: Item, front: bool): (k': Work)
    requires q in k.queues
  {
    k.(queues := k.queues[q := Enqueued(k.queues[q], x, front)])
  }

  function ClearQueues(k: Work, qs: set<QueueId>): (k': Work) {
    k.(queues := map q | q in k.queues :: if q in qs then Cleared(k.queues[q]) else k.queues[q])
  }

  // ---------- invariant ----------

  ghost predicate QueueInv(k: Work, q: QueueId)
    requires q in k.queues
  {
    QueueOk(k.queues[q],
      Count(k.workers, AtDequeued(q)), Count(k.workers, AtPushed(q)), Gather(k.workers, RunningItem(q)))
  }

  /** `processing` is the number of workers in flight, each on a queue of the pool. */
  ghost predicate FlightInv(k: Work) {
    && (forall w | 0 <= w < |k.workers| && InFlight(k.workers[w]) :: k.workers[w].q in k.queues)
    && k.processing == Count(k.workers, InFlight)
  }

  ghost predicate WorkInv(k: Work) {
    FlightInv(k) && forall q | q in k.queues :: QueueInv(k, q)
  }

  /** A worker's move leaves the counts of a queue it does not concern alone. */
  lemma MoveElsewhere(ws: seq<WorkerPc>, w: nat, pc: WorkerPc, q: QueueId)
    requires w < |ws| && (InFlight(ws[w]) ==> ws[w].q != q) && (InFlight(pc) ==> pc.q != q)
    ensures var ws' := ws[w := pc];
            && Count(ws', AtDequeued(q)) == Count(ws, AtDequeued(q))
            && Count(ws', AtPushed(q)) == Count(ws, AtPushed(q))
            && Gather(ws', RunningItem(q)) == Gather(ws, RunningItem(q))
  {
    CountSame(ws, ws[w := pc], AtDequeued(q));
    CountSame(ws, ws[w := pc], AtPushed(q));
    GatherSame(ws, ws[w := pc], RunningItem(q));
  }

  lemma QueueElsewhere(k: Work, w: nat, pc: WorkerPc, mine: QueueId, queue: Queue, delta: int, q: QueueId)
    requires w < |k.workers| && q in k.queues && q != mine && QueueInv(k, q)
    requires (InFlight(k.workers[w]) ==> k.workers[w].q == mine) && (InFlight(pc) ==> pc.q == mine)
    ensures QueueInv(Move(k, w, pc, mine, queue, delta), q)
  {
    MoveElsewhere(k.workers, w, pc, q);
  }

  lemma FlightMove(k: Work, w: nat, pc: WorkerPc, mine: QueueId, queue: Queue, delta: int)
    requires FlightInv(k) && w < |k.workers| && mine in k.queues && (InFlight(pc) ==> pc.q == mine)
    requires delta == (if InFlight(pc) then 1 else 0) - (if InFlight(k.workers[w]) then 1 else 0)
    ensures FlightInv(Move(k, w, pc, mine, queue, delta))
  {
    CountUpdate(k.workers, w, pc, InFlight);
  }

  /** A move concerning queue `q` alone keeps the invariant if it keeps that of `q`. */
  lemma MoveKeeps(k: Work, w: nat, pc: WorkerPc, mine: QueueId, queue: Queue, delta: int)
    requires WorkInv(k) && w < |k.workers| && mine in k.queues
    requires (InFlight(k.workers[w]) ==> k.workers[w].q == mine) && (InFlight(pc) ==> pc.q == mine)
    requires delta == (if InFlight(pc) then 1 else 0) - (if InFlight(k.workers[w]) then 1 else 0)
    requires QueueInv(Move(k, w, pc, mine, queue, delta), mine)
    ensures WorkInv(Move(k, w, pc, mine, queue, delta))
  {
    var k' := Move(k, w, pc, mine, queue, delta);
    FlightMove(k, w, pc, mine, queue, delta);
    forall q | q in k'.queues && q != mine ensures QueueInv(k', q) {
      QueueElsewhere(k, w, pc, mine, queue, delta, q);
    }
  }

  /** How a worker's own move changes the counts of its queue. */
  lemma MoveHere(ws: seq<WorkerPc>, w: nat, pc: WorkerPc, q: QueueId)
    requires w < |ws|
    ensures var ws' := ws[w := pc];
            && Count(ws', AtDequeued(q)) ==
                 Count(ws, AtDequeued(q)) - (if ws[w] == Dequeued(q) then 1 else 0)
                 + (if pc == Dequeued(q) then 1 else 0)
            && Count(ws', AtPushed(q)) ==
                 Count(ws, AtPushed(q)) - (if ws[w] == Pushed(q) then 1 else 0) + (if pc == Pushed(q) then 1 else 0)
            && (!ws[w].Running? && !pc.Running? ==> Gather(ws', RunningItem(q)) == Gather(ws, RunningItem(q)))
            && (!ws[w].Running? && pc.Running? && pc.q == q ==>
                  Gather(ws', RunningItem(q)) == Gather(ws, RunningItem(q)) + multiset{pc.item})
            && (ws[w].Running? && ws[w].q == q && !pc.Running? ==>
                  Gather(ws', RunningItem(q)) + multiset{ws[w].item} == Gather(ws, RunningItem(q)))
  {
    CountUpdate(ws, w, pc, AtDequeued(q));
    CountUpdate(ws, w, pc, AtPushed(q));
    GatherUpdate(ws, w, pc, RunningItem(q));
    var g, g', none := Gather(ws, RunningItem(q)), Gather(ws[w := pc], RunningItem(q)), multiset{};
    assert g + none == g && g' + none == g';
  }

  lemma TakeHere(k: Work, w: nat, q: QueueId)
    requires CanTake(k, w, q) && QueueInv(k, q)
    ensures QueueInv(Take(k, w, q), q)
  {
    MoveHere(k.workers, w, Dequeued(q), q);
    TakenOutOk(k.queues[q],
      Count(k.workers, AtDequeued(q)), Count(k.workers, AtPushed(q)), Gather(k.workers, RunningItem(q)));
  }

  lemma TakeKeeps(k: Work, w: nat, q: QueueId)
    requires WorkInv(k) && CanTake(k, w, q)
    ensures WorkInv(Take(k, w, q))
  {
    TakeHere(k, w, q);
    MoveKeeps(k, w, Dequeued(q), q, TakenOut(k.queues[q]), 1);
  }

  lemma PopHere(k: Work, w: nat)
    requires CanPop(k, w) && QueueInv(k, k.workers[w].q)
    ensures QueueInv(Pop(k, w), k.workers[w].q)
  {
    var q := k.workers[w].q;
    MoveHere(k.workers, w, Running(q, k.queues[q].toProcess[0]), q);
    PoppedOk(k.queues[q],
      Count(k.workers, AtDequeued(q)), Count(k.workers, AtPushed(q)), Gather(k.workers, RunningItem(q)));
  }

  lemma PopKeeps(k: Work, w: nat)
    requires WorkInv(k) && CanPop(k, w)
    ensures WorkInv(Pop(k, w))
  {
    var q := k.workers[w].q;
    PopHere(k, w);
    MoveKeeps(k, w, Running(q, k.queues[q].toProcess[0]), q, Popped(k.queues[q]), 0);
  }

  lemma PushHere(k: Work, w: nat)
    requires CanPush(k, w) && QueueInv(k, k.workers[w].q)
    ensures QueueInv(Push(k, w), k.workers[w].q)
  {
    var q := k.workers[w].q;
    MoveHere(k.workers, w, Pushed(q), q);
    PushedBackOk(k.queues[q], Count(k.workers, AtDequeued(q)), Count(k.workers, AtPushed(q)),
                 Gather(k.workers[w := Pushed(q)], RunningItem(q)), k.workers[w].item);
  }

  lemma PushKeeps(k: Work, w: nat)
    requires WorkInv(k) && CanPush(k, w)
    ensures WorkInv(Push(k, w))
  {
    var q := k.workers[w].q;
    PushHere(k, w);
    MoveKeeps(k, w, Pushed(q), q, PushedBack(k.queues[q], k.workers[w].item), 0);
  }

  lemma FinishHere(k: Work, w: nat)
    requires CanFinish(k, w) && QueueInv(k, k.workers[w].q)
    ensures QueueInv(Finish(k, w), k.workers[w].q)
  {
    var q := k.workers[w].q;
    MoveHere(k.workers, w, Ready, q);
    FinishedOk(k.queues[q],
      Count(k.workers, AtDequeued(q)), Count(k.workers, AtPushed(q)), Gather(k.workers, RunningItem(q)));
  }

  lemma FinishKeeps(k: Work, w: nat)
    requires WorkInv(k) && CanFinish(k, w)
    ensures WorkInv(Finish(k, w))
  {
    var q := k.workers[w].q;
    FinishHere(k, w);
    MoveKeeps(k, w, Ready, q, Finished(k.queues[q]), -1);
  }

  /** A change of one queue that keeps its invariant, with all workers where they were. */
  lemma QueueKeeps(k: Work, q: QueueId, queue: Queue)
    requires WorkInv(k)
    requires QueueInv(k.(queues := k.queues[q := queue]), q)
    ensures WorkInv(k.(queues := k.queues[q := queue]))
  {
    var k' := k.(queues := k.queues[q := queue]);
    forall r | r in k'.queues && r != q ensures QueueInv(k', r) {
      assert QueueInv(k, r);
    }
  }

  lemma EnqueueKeeps(k: Work, q: QueueId, x: Item, front: bool)
    requires WorkInv(k) && q in k.queues
    ensures WorkInv(Enqueue(k, q, x, front))
  {
    assert QueueInv(k, q);
    EnqueuedOk(k.queues[q], Count(k.workers, AtDequeued(q)), Count(k.workers, AtPushed(q)),
               Gather(k.workers, RunningItem(q)), x, front);
    QueueKeeps(k, q, Enqueued(k.queues[q], x, front));
  }

  lemma NewQueueKeeps(k: Work, q: QueueId)
    requires WorkInv(k) && q !in k.queues
    ensures WorkInv(k.(queues := k.queues[q := EMPTY_QUEUE]))
  {
    NoneInPhase(k.workers, q);
    QueueKeeps(k, q, EMPTY_QUEUE);
  }

  lemma ClearHere(k: Work, qs: set<QueueId>, q: QueueId)
    requires q in k.queues && QueueInv(k, q)
    ensures QueueInv(ClearQueues(k, qs), q)
  {
    ClearedOk(k.queues[q],
      Count(k.workers, AtDequeued(q)), Count(k.workers, AtPushed(q)), Gather(k.workers, RunningItem(q)));
  }

  lemma ClearKeeps(k: Work, qs: set<QueueId>)
    requires WorkInv(k)
    ensures WorkInv(ClearQueues(k, qs))
  {
    var k' := ClearQueues(k, qs);
    forall q | q in k'.queues ensures QueueInv(k', q) {
      ClearHere(k, qs, q);
    }
  }

  /** Equal as far as work in flight is concerned. */
  predicate SameWork(pc: WorkerPc, pc': WorkerPc) {
    pc == pc' || (!InFlight(pc) && !InFlight(pc'))
  }

  ghost predicate SameFlight(k: Work, k': Work) {
    && k'.queues == k.queues && k'.processing == k.processing && |k'.workers| == |k.workers|
    && forall w | 0 <= w < |k.workers| :: SameWork(k.workers[w], k'.workers[w])
  }

  lemma SameWorkHere(k: Work, k': Work, q: QueueId)
    requires SameFlight(k, k') && q in k.queues && QueueInv(k, q)
    ensures QueueInv(k', q)
  {
    CountSame(k.workers, k'.workers, AtDequeued(q));
    CountSame(k.workers, k'.workers, AtPushed(q));
    GatherSame(k.workers, k'.workers, RunningItem(q));
  }

  /** Workers that only sleep, wake or exit do not touch the work in flight. */
  lemma SameWorkKeeps(k: Work, k': Work)
    requires WorkInv(k) && SameFlight(k, k')
    ensures WorkInv(k')
  {
    CountSame(k.workers, k'.workers, InFlight);
    forall q | q in k'.queues ensures QueueInv(k', q) {
      SameWorkHere(k, k', q);
    }
  }

  lemma NewWorkerHere(k: Work, q: QueueId)
    requires q in k.queues && QueueInv(k, q)
    ensures QueueInv(k.(workers := k.workers + [Ready]), q)
  {
    CountAppend(k.workers, Ready, AtDequeued(q));
    CountAppend(k.workers, Ready, AtPushed(q));
    GatherAppend(k.workers, Ready, RunningItem(q));
  }

  /** A worker that has just been created has nothing in flight. */
  lemma NewWorkerKeeps(k: Work)
    requires WorkInv(k)
    ensures WorkInv(k.(workers := k.workers + [Ready]))
  {
    CountAppend(k.workers, Ready, InFlight);
    forall q | q in k.queues ensures QueueInv(k.(workers := k.workers + [Ready]), q) {
      NewWorkerHere(k, q);
    }
  }

  /** With no worker in flight on `q` nothing is in its lists. */
  lemma {:induction false} NoneInPhase(ws: seq<WorkerPc>, q: QueueId)
    requires forall w | 0 <= w < |ws| && InFlight(ws[w]) :: ws[w].q != q
    ensures Count(ws, AtDequeued(q)) == 0 && Count(ws, AtPushed(q)) == 0 && Gather(ws, RunningItem(q)) == multiset{}
  {
    if ws != [] {
      NoneInPhase(ws[..|ws| - 1], q);
    }
  }

  // ---------- consequences ----------

  /** Neither ASSERT of the hand-off can fire: a worker that is about to take from a list finds an
      entry there. */
  lemma HandOffsNeverEmpty(k: Work, w: nat)
    requires WorkInv(k) && w < |k.workers|
    ensures k.workers[w].Dequeued? ==> CanPop(k, w)
    ensures k.workers[w].Running? ==> CanPush(k, w)
    ensures k.workers[w].Pushed? ==> CanFinish(k, w)
  {
    if InFlight(k.workers[w]) {
      var q := k.workers[w].q;
      assert QueueInv(k, q);
      CountPositive(k.workers, AtDequeued(q));
      CountPositive(k.workers, AtPushed(q));
      assert k.workers[w].Dequeued? ==> AtDequeued(q)(k.workers[w]);
      assert k.workers[w].Pushed? ==> AtPushed(q)(k.workers[w]);
    }
  }

  /** Conservation: every item ever enqueued is in exactly one place, counted with multiplicity. */
  lemma Conservation(k: Work, q: QueueId)
    requires WorkInv(k) && q in k.queues
    ensures var u := k.queues[q];
            u.past.enqueued == multiset(u.items) + multiset(u.toProcess) + Gather(k.workers, RunningItem(q))
                               + multiset(u.toFinish) + multiset(u.past.finished) + u.past.discarded
  {
    assert QueueInv(k, q);
  }

  /** Items enter _process in the order in which they were dequeued, and _process_finish runs in the
      order in which _process returned. */
  lemma HandOffOrder(k: Work, q: QueueId)
    requires WorkInv(k) && q in k.queues
    ensures k.queues[q].past.started <= k.queues[q].past.dequeued
    ensures k.queues[q].past.finished <= k.queues[q].past.completed
  {
    assert QueueInv(k, q);
  }

  /** With nothing being processed, whatever was dequeued has been finished. */
  lemma IdleMeansFinished(k: Work, q: QueueId)
    requires WorkInv(k) && q in k.queues && k.processing == 0
    ensures k.queues[q].toProcess == [] && k.queues[q].toFinish == []
    ensures multiset(k.queues[q].past.dequeued) == multiset(k.queues[q].past.finished)
    ensures k.queues[q].past.enqueued ==
              multiset(k.queues[q].items) + multiset(k.queues[q].past.finished) + k.queues[q].past.discarded
  {
    CountPositive(k.workers, InFlight);
    NoneInPhase(k.workers, q);
    assert QueueInv(k, q);
  }
}
