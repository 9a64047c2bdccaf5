/**
 The thread pool as an object.  Each method is one region that the program runs under a lock, and
 each is proved to be the step of the same name in the pool's step relation, so everything proved
 there about runs holds of any interleaving of these methods.
 */
module ThreadPool {
  import opened Counting
  import opened PoolWork
  import opened WorkerPool
  import PoolGuarantees
  import opened PoolSteps

  /** How a worker's pass under the pool lock ends. */
  datatype RoundResult = Leave | Sleep | Got(q: QueueId)

  class ThreadPool {
    const numThreads: nat
    var stop: bool
    var pause: int
    var draining: int
    var processing: int
    var workQueues: seq<QueueId>
    var nextWorkQueue: nat
    var queues: map<QueueId, Queue>
    var threads: nat
    ghost var workers: seq<WorkerPc>
    ghost var clients: seq<ClientPc>

    ghost function View(): (s: State)
      reads this
    {
      State(Work(processing, queues, workers), numThreads, stop, pause, draining, workQueues, nextWorkQueue, clients)
    }

    /** Some run of the pool leads to the state of the object. */
    ghost predicate Valid()
      reads this
    {
      Reachable(View()) && threads == |workers|
    }

    constructor (n: nat)
      ensures Valid() && Initial(View()) && numThreads == n
    {
      numThreads, stop, pause, draining, processing := n, false, 0, 0, 0;
      workQueues, nextWorkQueue, queues, threads := [], 0, map[], 0;
      workers, clients := [], [];
      new;
      Begin(View());
    }

    /** start_threads: creates threads until there are as many as asked for. */
    method StartThreads()
      requires Valid() && !stop
      modifies this`threads, this`workers
      ensures Valid() && View() == Apply(old(View()), Start)
      ensures threads == (if old(threads) < numThreads then numThreads else old(threads)) && old(workers) <= workers
    {
      StartFillsUp(View());
      ghost var s := View();
      while threads < numThreads
        invariant threads == |workers|
        invariant AddWorkers(View().work, Missing(View())) == AddWorkers(s.work, Missing(s))
        invariant View() == s.(work := s.work.(workers := workers))
      {
        workers := workers + [Ready];
        threads := threads + 1;
      }
      Go(s, Start, View());
    }

    /** Registers a queue, new or not; with all workers asleep a non-empty one is stranded. */
    method AddWorkQueue(q: QueueId)
      requires Valid()
      modifies this`workQueues, this`queues
      ensures Valid() && View() == Apply(old(View()), AddQueue(q)) && workQueues == old(workQueues) + [q]
      ensures old(NotStranded(View())) ==> (NotStranded(View()) <==> !StrandsWork(old(View()), AddQueue(q)))
    {
      Go(View(), AddQueue(q), Apply(View(), AddQueue(q)));
      if NotStranded(View()) {
        AddQueueNotStranded(View(), q);
      }
      workQueues := workQueues + [q];
      if q !in queues {
        queues := queues[q := EMPTY_QUEUE];
      }
    }

    /** Erases the first occurrence of `q`, if there is one. */
    method RemoveWorkQueue(q: QueueId)
      requires Valid()
      modifies this`workQueues
      ensures Valid() && View() == Apply(old(View()), RemoveQueue(q)) && TakesOneOut(old(workQueues), workQueues, q)
    {
      RemoveTakesOne(View(), q);
      Go(View(), RemoveQueue(q), Apply(View(), RemoveQueue(q)));
      var i := 0;
      while i < |workQueues| && workQueues[i] != q
        invariant i <= |workQueues| && forall j | 0 <= j < i :: workQueues[j] != q
      {
        i := i + 1;
      }
      WithoutFirst(workQueues, q, i);
      if i < |workQueues| {
        workQueues := workQueues[..i] + workQueues[i + 1..];
      }
    }

    /** queue() and queue_front(): append or prepend, then notify_one. */
    method QueueItem(q: QueueId, x: Item, front: bool, ghost woken: nat)
      requires Valid() && Enabled(View(), Submit(q, x, front, woken))
      modifies this`queues, this`workers
      ensures Valid() && View() == Apply(old(View()), Submit(q, x, front, woken)) && NotStranded(View())
      ensures queues[q].items == if front then [x] + old(queues)[q].items else old(queues)[q].items + [x]
    {
      Go(View(), Submit(q, x, front, woken), Apply(View(), Submit(q, x, front, woken)));
      SubmitNotStranded(View(), q, x, front, woken);
      queues := queues[q := Enqueued(queues[q], x, front)];
      if Count(workers, IsAsleep) > 0 {
        workers := workers[woken := Ready];
      }
    }

    /** _void_dequeue: moves the first item, if any, to to_process. */
    method VoidDequeue(q: QueueId) returns (found: bool)
      requires q in queues
      modifies this`queues
      ensures found <==> old(queues)[q].items != []
      ensures queues == if found then old(queues)[q := TakenOut(old(queues)[q])] else old(queues)
    {
      if queues[q].items == [] {
        return false;
      }
      queues := queues[q := TakenOut(queues[q])];
      return true;
    }

    /** The worker's search: at most twice round the list from the cursor. */
    method Search() returns (found: bool, q: QueueId, ghost offset: nat)
      requires Registered(View()) && workQueues != []
      modifies this`nextWorkQueue, this`queues
      ensures found <==> !AllEmpty(old(View()))
      ensures found ==> FirstNonEmpty(old(View()), offset) && q == QueueAt(old(View()), offset)
      ensures found ==> queues == old(queues)[q := TakenOut(old(queues)[q])]
      ensures found ==> nextWorkQueue == Wrap(old(nextWorkQueue) % |workQueues|, offset, |workQueues|) + 1
      ensures !found ==> queues == old(queues) && nextWorkQueue == CursorAfterMiss(old(nextWorkQueue), |workQueues|)
    {
      ghost var s := View();
      var n := |workQueues|;
      ghost var p := nextWorkQueue % n;
      var tries := 2 * n;
      q, offset := 0, 0;
      while tries != 0
        invariant 0 <= tries <= 2 * n && queues == old(queues)
        invariant tries == 2 * n ==> nextWorkQueue == old(nextWorkQueue)
        invariant n <= tries < 2 * n ==> nextWorkQueue == Wrap(p, 2 * n - tries - 1, n) + 1
        invariant tries < n ==> nextWorkQueue == Wrap(p, n - tries - 1, n) + 1
        invariant forall j: nat | j < n && j < 2 * n - tries :: ItemsOf(queues, QueueAt(s, j)) == []
      {
        ghost var done := 2 * n - tries;
        offset := if done < n then done else done - n;
        if tries < 2 * n {
          PoolGuarantees.CursorOnRing(nextWorkQueue, n);
        }
        tries := tries - 1;
        nextWorkQueue := nextWorkQueue % n;
        assert nextWorkQueue == Wrap(p, offset, n);
        q := workQueues[nextWorkQueue];
        nextWorkQueue := nextWorkQueue + 1;
        assert q == QueueAt(s, offset);
        found := VoidDequeue(q);
        if found {
          assert FirstNonEmpty(s, offset);
          SearchIsComplete(s);
          return;
        }
      }
      found := false;
      MissMeansEmpty(s);
    }

    /** One pass of the worker loop, up to the next release of the pool lock. */
    method Round(ghost w: nat) returns (r: RoundResult, ghost offset: nat)
      requires Valid() && w < |workers| && workers[w].Ready?
      modifies this`nextWorkQueue, this`queues, this`processing, this`workers
      ensures Valid() && Enabled(old(View()), WorkerPool.Round(w, offset))
      ensures View() == Apply(old(View()), WorkerPool.Round(w, offset))
      ensures workers[w] == match r case Leave => Exited case Sleep => Asleep case Got(q) => Dequeued(q)
    {
      ghost var s := View();
      IsRegistered(s);
      r, offset := RoundSection(w);
      Go(s, WorkerPool.Round(w, offset), View());
    }

    method RoundSection(ghost w: nat) returns (r: RoundResult, ghost offset: nat)
      requires Registered(View()) && threads == |workers| && w < |workers| && workers[w].Ready?
      modifies this`nextWorkQueue, this`queues, this`processing, this`workers
      ensures threads == |workers| && Enabled(old(View()), WorkerPool.Round(w, offset))
      ensures View() == Apply(old(View()), WorkerPool.Round(w, offset))
      ensures workers[w] == match r case Leave => Exited case Sleep => Asleep case Got(q) => Dequeued(q)
    {
      offset := 0;
      if stop {
        workers := workers[w := Exited];
        return Leave, 0;
      }
      if workQueues != [] && pause == 0 {
        var found, q;
        found, q, offset := Search();
        if found {
          processing := processing + 1;
          workers := workers[w := Dequeued(q)];
          return Got(q), offset;
        }
      }
      workers := workers[w := Asleep];
      return Sleep, offset;
    }

    /** _void_process up to the call of _process. */
    method BeginProcess(q: QueueId, ghost w: nat) returns (u: Item)
      requires Valid() && w < |workers| && workers[w] == Dequeued(q)
      modifies this`queues, this`workers
      ensures Valid() && CanPop(old(View()).work, w) && View() == Apply(old(View()), WorkerPool.BeginProcess(w))
      ensures workers[w] == Running(q, u)
    {
      HandOffIsReady(View(), w);
      Go(View(), WorkerPool.BeginProcess(w), Apply(View(), WorkerPool.BeginProcess(w)));
      assert queues[q].toProcess != [];
      u := queues[q].toProcess[0];
      queues := queues[q := Popped(queues[q])];
      workers := workers[w := Running(q, u)];
    }

    /** _void_process from the return of _process. */
    method EndProcess(q: QueueId, u: Item, ghost w: nat)
      requires Valid() && w < |workers| && workers[w] == Running(q, u)
      modifies this`queues, this`workers
      ensures Valid() && CanPush(old(View()).work, w) && View() == Apply(old(View()), WorkerPool.EndProcess(w))
    {
      HandOffIsReady(View(), w);
      Go(View(), WorkerPool.EndProcess(w), Apply(View(), WorkerPool.EndProcess(w)));
      queues := queues[q := PushedBack(queues[q], u)];
      workers := workers[w := Pushed(q)];
    }

    /** _void_process_finish and what follows it under the pool lock. */
    method FinishItem(q: QueueId, ghost w: nat)
      requires Valid() && w < |workers| && workers[w] == Pushed(q)
      modifies this`queues, this`workers, this`processing, this`clients
      ensures Valid() && CanFinish(old(View()).work, w) && View() == Apply(old(View()), WorkerPool.FinishItem(w))
    {
      HandOffIsReady(View(), w);
      Go(View(), WorkerPool.FinishItem(w), Apply(View(), WorkerPool.FinishItem(w)));
      assert queues[q].toFinish != [];
      queues := queues[q := Finished(queues[q])];
      workers := workers[w := Ready];
      processing := processing - 1;
      if pause != 0 || draining != 0 {
        clients := WakeClients(clients);
      }
    }

    /** The first section of pause(); true means that it has to wait. */
    method CallPause() returns (wait: bool)
      requires Valid()
      modifies this`pause, this`clients
      ensures Valid() && View() == Apply(old(View()), WorkerPool.CallPause) && (wait <==> processing != 0)
      ensures |clients| == |old(clients)| + 1 && (wait <==> Waiting(clients[|old(clients)|]))
      ensures !wait ==> NothingInFlight(View())
    {
      IdleIsSeen(View());
      Go(View(), WorkerPool.CallPause, Apply(View(), WorkerPool.CallPause));
      pause := pause + 1;
      wait := processing != 0;
      clients := clients + [if wait then PauseAsleep(true) else Paused];
    }

    /** The unpause() that belongs to call `c` of pause(), which need not have returned. */
    method Unpause(ghost c: nat)
      requires Valid() && c < |clients| && Pausing(clients[c])
      modifies this`pause, this`clients, this`workers
      ensures Valid() && View() == Apply(old(View()), WorkerPool.Unpause(c))
    {
      Go(View(), WorkerPool.Unpause(c), Apply(View(), WorkerPool.Unpause(c)));
      pause := pause - 1;
      clients := clients[c := Unpaused(clients[c])];
      workers := WakeWorkers(workers);
    }

    /** The loop condition of drain(). */
    method MustDrain(target: Target) returns (wait: bool)
      ensures wait <==> !MayLeave(View(), DrainAwake(target))
    {
      wait := processing != 0 || (target.Only? && target.q in queues && queues[target.q].items != []);
    }

    /** The first section of drain(). */
    method CallDrain(target: Target) returns (wait: bool)
      requires Valid()
      modifies this`draining, this`clients
      ensures Valid() && View() == Apply(old(View()), WorkerPool.CallDrain(target))
      ensures |clients| == |old(clients)| + 1 && (wait <==> Waiting(clients[|old(clients)|]))
      ensures !wait ==> NothingInFlight(View())
      ensures !wait && target.Only? && target.q in queues ==> AllFinished(queues[target.q])
    {
      IdleIsSeen(View());
      Go(View(), WorkerPool.CallDrain(target), Apply(View(), WorkerPool.CallDrain(target)));
      DrainedMeansFinished(View(), target);
      draining := draining + 1;
      wait := MustDrain(target);
      if wait {
        clients := clients + [DrainAsleep(target)];
      } else {
        clients := clients + [Done];
        draining := draining - 1;
      }
    }

    /** What a pauser does each time it wakes up with the pool lock; below, the same for a drainer. */
    method RecheckPause(ghost c: nat) returns (wait: bool)
      requires Valid() && c < |clients| && clients[c].PauseAwake?
      modifies this`clients
      ensures Valid() && View() == Apply(old(View()), WorkerPool.Recheck(c)) && (wait <==> processing != 0)
      ensures |clients| == |old(clients)| && (wait <==> Waiting(clients[c]))
      ensures !wait ==> NothingInFlight(View())
    {
      IdleIsSeen(View());
      Go(View(), WorkerPool.Recheck(c), Apply(View(), WorkerPool.Recheck(c)));
      wait := processing != 0;
      clients := clients[c := PauseDecides(View(), clients[c].inForce)];
    }

    method RecheckDrain(ghost c: nat, target: Target) returns (wait: bool)
      requires Valid() && c < |clients| && clients[c] == DrainAwake(target)
      modifies this`draining, this`clients
      ensures Valid() && View() == Apply(old(View()), WorkerPool.Recheck(c))
      ensures |clients| == |old(clients)| && (wait <==> Waiting(clients[c]))
      ensures !wait ==> NothingInFlight(View())
      ensures !wait && target.Only? && target.q in queues ==> AllFinished(queues[target.q])
    {
      IdleIsSeen(View());
      Go(View(), WorkerPool.Recheck(c), Apply(View(), WorkerPool.Recheck(c)));
      DrainedMeansFinished(View(), target);
      wait := MustDrain(target);
      clients := clients[c := if wait then DrainAsleep(target) else Done];
      draining := if wait then draining else draining - 1;
    }

    /** stop() up to the release of the lock before it joins the workers. */
    method StopBegin()
      requires Valid() && !stop
      modifies this`stop, this`workers
      ensures Valid() && View() == Apply(old(View()), WorkerPool.StopBegin)
    {
      Go(View(), WorkerPool.StopBegin, Apply(View(), WorkerPool.StopBegin));
      stop := true;
      workers := WakeWorkers(workers);
    }

    /** The loop over the registered queues that calls _clear on each; `cleared` says whose _clear
        empties the queue. */
    method ClearRegistered(cleared: set<QueueId>)
      requires forall q | q in workQueues :: q in queues
      modifies this`queues
      ensures queues == ClearQueues(Work(0, old(queues), []), set q | q in workQueues && q in cleared).queues
    {
      ghost var k := Work(0, queues, []);
      assert (set q | q in workQueues[..0] && q in cleared) == {};
      assert ClearQueues(k, {}).queues == queues;
      for i := 0 to |workQueues|
        invariant queues == ClearQueues(k, set q | q in workQueues[..i] && q in cleared).queues
      {
        var q := workQueues[i];
        ghost var done := set q | q in workQueues[..i] && q in cleared;
        ghost var next := set q | q in workQueues[..i + 1] && q in cleared;
        assert workQueues[..i + 1] == workQueues[..i] + [q];
        assert next == if q in cleared then done + {q} else done;
        if q in cleared {
          ClearOneMore(k, done, q);
          queues := queues[q := Cleared(queues[q])];
        }
      }
      assert workQueues[..|workQueues|] == workQueues;
    }

    /** stop() once all workers have been joined. */
    method StopEnd(cleared: set<QueueId>)
      requires Valid() && Enabled(View(), WorkerPool.StopEnd(cleared))
      modifies this`stop, this`threads, this`workers, this`queues
      ensures Valid() && View() == Apply(old(View()), WorkerPool.StopEnd(cleared)) && processing == 0
      ensures forall q | q in queues :: queues[q].toProcess == [] && queues[q].toFinish == []
      ensures !stop && threads == 0
    {
      IsRegistered(View());
      StopFindsAllFinished(View(), cleared);
      Go(View(), WorkerPool.StopEnd(cleared), Apply(View(), WorkerPool.StopEnd(cleared)));
      workers, threads := [], 0;
      ClearRegistered(cleared);
      stop := false;
    }
  }

  /** Every item ever enqueued has been processed and finished, or was discarded by a stop. */
  ghost predicate AllFinished(u: Queue) {
    && u.items == [] && u.toProcess == [] && u.toFinish == []
    && u.past.enqueued == multiset(u.past.finished) + u.past.discarded
  }

  lemma IsRegistered(s: State)
    requires Reachable(s)
    ensures Registered(s)
  {
    ReachableInv(s);
  }

  /** No ASSERT of the hand-off can fire in a reachable state. */
  lemma HandOffIsReady(s: State, w: nat)
    requires Reachable(s) && w < |s.work.workers|
    ensures s.work.workers[w].Dequeued? ==> CanPop(s.work, w)
    ensures s.work.workers[w].Running? ==> CanPush(s.work, w)
    ensures s.work.workers[w].Pushed? ==> CanFinish(s.work, w)
  {
    ReachableInv(s);
    HandOffsNeverEmpty(s.work, w);
  }

  lemma IdleIsSeen(s: State)
    requires Reachable(s)
    ensures s.work.processing == 0 <==> NothingInFlight(s)
  {
    ReachableInv(s);
    CountPositive(s.work.workers, InFlight);
  }

  lemma StopFindsAllFinished(s: State, cleared: set<QueueId>)
    requires Reachable(s) && Enabled(s, WorkerPool.StopEnd(cleared))
    ensures s.work.processing == 0
    ensures forall q | q in s.work.queues :: s.work.queues[q].toProcess == [] && s.work.queues[q].toFinish == []
  {
    ReachableInv(s);
    IdleWorkers(s.work);
    forall q | q in s.work.queues ensures s.work.queues[q].toProcess == [] && s.work.queues[q].toFinish == [] {
      PoolGuarantees.StopStep(s, cleared, q);
    }
  }

  lemma DrainedMeansFinished(s: State, target: Target)
    requires Reachable(s)
    ensures MayLeave(s, DrainAwake(target)) && target.Only? && target.q in s.work.queues ==>
              AllFinished(s.work.queues[target.q])
  {
    ReachableInv(s);
    if MayLeave(s, DrainAwake(target)) && target.Only? && target.q in s.work.queues {
      IdleMeansFinished(s.work, target.q);
    }
  }

  lemma ClearOneMore(k: Work, done: set<QueueId>, q: QueueId)
    requires q in k.queues
    ensures var once := ClearQueues(k, done).queues; once[q := Cleared(once[q])] == ClearQueues(k, done + {q}).queues
  {
    var u := k.queues[q];
    assert Cleared(Cleared(u)) == Cleared(u) by {
      assert u.past.discarded + multiset(u.items) + multiset{} == u.past.discarded + multiset(u.items);
    }
  }

  /** A search that has seen all positions empty has seen all queues empty. */
  lemma MissMeansEmpty(s: State)
    requires forall j: nat | j < |s.workQueues| :: ItemsOf(s.work.queues, QueueAt(s, j)) == []
    ensures AllEmpty(s)
  {
    forall q | q in s.workQueues ensures ItemsOf(s.work.queues, q) == [] {
      var i :| 0 <= i < |s.workQueues| && s.workQueues[i] == q;
      var k := EveryQueueIsAhead(s, i);
      assert QueueAt(s, k) == q;
    }
  }
}
