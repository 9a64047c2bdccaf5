/**
 Runs of the thread pool that end with a lost wake-up, one for each of the steps that can lose one.
 All three start with one worker, one queue and one item in it.
 */
module PoolLimits {
  import opened PoolWork
  import opened WorkerPool

  /** A pool of one thread and one queue, which is registered, with nothing in flight and no callers. */
  function Idle(queue: Queue, workers: seq<WorkerPc>): (s: State) {
    State(Work(0, map[0 := queue], workers), 1, false, 0, 0, [0], 0, [])
  }

  function OneItem(x: Item): (queue: Queue) {
    Enqueued(EMPTY_QUEUE, x, false)
  }

  /** The common start of the three runs. */
  lemma OneItemWaiting(x: Item)
    ensures Reachable(Idle(OneItem(x), [Ready]))
  {
    var s0 := State(Work(0, map[], []), 1, false, 0, 0, [], 0, []);
    Begin(s0);
    Go(s0, AddQueue(0), Idle(EMPTY_QUEUE, []));
    Go(Idle(EMPTY_QUEUE, []), Submit(0, x, false, 0), Idle(OneItem(x), []));
    assert AddWorkers(Work(0, map[0 := OneItem(x)], [Ready]), 0).workers == [Ready];
    Go(Idle(OneItem(x), []), Start, Idle(OneItem(x), [Ready]));
  }

  /** The queue is removed, the worker finds no queue and sleeps, and the queue is registered again:
      its item waits, and nobody is awake to take it. */
  lemma RegisteringAgainStrandsWork(x: Item)
    ensures exists s :: Reachable(s) && !NotStranded(s)
  {
    OneItemWaiting(x);
    var s0 := Idle(OneItem(x), [Ready]);
    var s1 := s0.(workQueues := []);
    var s2 := Idle(OneItem(x), [Asleep]).(workQueues := []);
    var s3 := Idle(OneItem(x), [Asleep]);
    Go(s0, RemoveQueue(0), s1);
    Go(s1, Round(0, 0), s2);
    Go(s2, AddQueue(0), s3);
    assert 0 in s3.workQueues && ItemsOf(s3.work.queues, 0) == [x];
  }

  /** The state of the second run: a drain() of the queue sleeps. */
  function WithDrainer(queue: Queue, workers: seq<WorkerPc>, stopping: bool): (s: State) {
    State(Work(0, map[0 := queue], workers), 1, stopping, 0, 1, [0], 0, [DrainAsleep(Only(0))])
  }

  lemma StoppedWhileDraining(x: Item)
    ensures Reachable(WithDrainer(OneItem(x), [Exited], true))
  {
    OneItemWaiting(x);
    var full := OneItem(x);
    Go(Idle(full, [Ready]), CallDrain(Only(0)), WithDrainer(full, [Ready], false));
    Go(WithDrainer(full, [Ready], false), StopBegin, WithDrainer(full, [Ready], true));
    Go(WithDrainer(full, [Ready], true), Round(0, 0), WithDrainer(full, [Exited], true));
  }

  /** A drain() waits for the queue when a stop clears it: the drain() sleeps on, un-notified, although
      nothing is in flight and the queue is empty. */
  lemma StopStrandsDrainer(x: Item)
    ensures exists s :: Reachable(s) && s.work.processing == 0 && !DrainersSound(s)
  {
    StoppedWhileDraining(x);
    StoppingClears(OneItem(x));
    var s := WithDrainer(Cleared(OneItem(x)), [], false);
    Go(WithDrainer(OneItem(x), [Exited], true), StopEnd({0}), s);
    assert s.clients[0].DrainAsleep? && ItemsOf(s.work.queues, 0) == [];
  }

  lemma StoppingClears(full: Queue)
    ensures var k := Work(0, map[0 := full], [Exited]);
            ClearQueues(k, set q | q in [0] && q in {0}).queues == map[0 := Cleared(full)]
  {
    assert (set q | q in [0] && q in {0}) == {0};
  }

  /** The state of the third run: the worker in phase `pc`, and a pause() that sleeps. */
  function WithPauser(processing: int, queue: Queue, pc: WorkerPc, inForce: bool): (s: State) {
    var pause := if inForce then 1 else 0;
    State(Work(processing, map[0 := queue], [pc]), 1, false, pause, 0, [0], 1, [PauseAsleep(inForce)])
  }

  /** The worker has taken the item out of the queue. */
  function Taken(x: Item): (s: State) {
    State(Work(1, map[0 := TakenOut(OneItem(x))], [Dequeued(0)]), 1, false, 0, 0, [0], 1, [])
  }

  lemma ItemTaken(x: Item)
    ensures Reachable(Taken(x))
  {
    OneItemWaiting(x);
    var s := Idle(OneItem(x), [Ready]);
    assert 0 in s.workQueues && FirstNonEmpty(s, 0);
    Go(s, Round(0, 0), Taken(x));
  }

  lemma UnpausedWhileWaiting(x: Item)
    ensures Reachable(WithPauser(1, TakenOut(OneItem(x)), Dequeued(0), false))
  {
    ItemTaken(x);
    var taken := TakenOut(OneItem(x));
    Go(Taken(x), CallPause, WithPauser(1, taken, Dequeued(0), true));
    Go(WithPauser(1, taken, Dequeued(0), true), Unpause(0), WithPauser(1, taken, Dequeued(0), false));
  }

  /** A pause() waits for the item in flight when its unpause() runs: the worker then finishes without
      notifying, and the pause() sleeps on with nothing in flight. */
  lemma EarlyUnpauseStrandsPauser(x: Item)
    ensures exists s :: Reachable(s) && s.work.processing == 0 && !PausersSound(s)
  {
    UnpausedWhileWaiting(x);
    var taken := TakenOut(OneItem(x));
    var popped := Popped(taken);
    var pushed := PushedBack(popped, x);
    var s := WithPauser(0, Finished(pushed), Ready, false);
    Go(WithPauser(1, taken, Dequeued(0), false), BeginProcess(0), WithPauser(1, popped, Running(0, x), false));
    Go(WithPauser(1, popped, Running(0, x), false), EndProcess(0), WithPauser(1, pushed, Pushed(0), false));
    Go(WithPauser(1, pushed, Pushed(0), false), FinishItem(0), s);
    assert s.clients[0].PauseAsleep?;
  }
}
