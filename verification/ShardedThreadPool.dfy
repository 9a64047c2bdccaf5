/**
 The sharded pool as an object: its flags and counters, and the regions that run under its lock,
 each proved to be a step of the barrier protocol.
 */
module ShardedThreadPool {
  import opened ShardedPool
  import opened ShardedGuarantees

  class ShardedThreadPool {
    const numThreads: nat
    var stopThreads: bool
    var pauseThreads: bool
    var drainThreads: bool
    var numPaused: int
    var numDrained: int
    var shards: seq<nat>
    ghost var workers: seq<WorkerPc>
    ghost var pausers: seq<PauserPc>
    ghost var paused: bool
    ghost var drain: DrainPc
    ghost var epoch: nat
    ghost var entry: int
    ghost var touched: set<nat>

    ghost function View(): (s: State)
      reads this
    {
      State(stopThreads, pauseThreads, drainThreads, numPaused, numDrained, workers, shards,
            pausers, paused, drain, epoch, entry, touched)
    }

    /** All num_threads workers have been created, and some run leads to the state of the object. */
    ghost predicate Valid()
      reads this
    {
      |workers| == |shards| == numThreads && Reachable(false, View())
    }

    /** The pool with its threads started and nothing queued. */
    constructor (n: nat)
      ensures Valid() && Initial(View()) && numThreads == n
    {
      numThreads := n;
      stopThreads, pauseThreads, drainThreads, numPaused, numDrained := false, false, false, 0, 0;
      shards, workers := seq(n, _ => 0), seq(n, _ => Top);
      pausers, paused, drain, epoch, entry, touched := [], false, NoDrain, 0, 0, {};
      new;
      Begin(false, View());
    }

    /** wait_cond.notify_all() */
    ghost method Notify()
      modifies this`pausers, this`drain
      ensures View() == NotifyControllers(old(View()))
    {
      pausers := WakePausers(pausers);
      drain := if drain.DrainAsleep? then DrainAwake else drain;
    }

    /** The worker has seen pause_threads and takes the lock; true means that it goes to sleep. */
    method EnterPause(ghost w: nat) returns (sleep: bool)
      requires Valid() && Enabled(false, View(), ShardedPool.EnterPause(w))
      modifies this`numPaused, this`workers, this`pausers, this`drain
      ensures Valid() && View() == Apply(false, old(View()), ShardedPool.EnterPause(w)) && sleep == pauseThreads
    {
      Go(false, View(), ShardedPool.EnterPause(w), Apply(false, View(), ShardedPool.EnterPause(w)));
      numPaused := numPaused + 1;
      Notify();
      sleep := pauseThreads;
      if sleep {
        workers := workers[w := PauseParked(true)];
      } else {
        numPaused := numPaused - 1;
        workers := workers[w := TestDrain];
      }
    }

    /** The parked worker wakes up with the lock. */
    method LeavePause(ghost w: nat) returns (sleep: bool)
      requires Valid() && Enabled(false, View(), ShardedPool.LeavePause(w))
      modifies this`numPaused, this`workers
      ensures Valid() && View() == Apply(false, old(View()), ShardedPool.LeavePause(w)) && sleep == pauseThreads
    {
      Go(false, View(), ShardedPool.LeavePause(w), Apply(false, View(), ShardedPool.LeavePause(w)));
      sleep := pauseThreads;
      if sleep {
        workers := workers[w := PauseParked(true)];
      } else {
        numPaused := numPaused - 1;
        workers := workers[w := TestDrain];
      }
    }

    /** The worker has seen drain_threads and takes the lock. */
    method EnterDrain(w: nat) returns (sleep: bool)
      requires Valid() && Enabled(false, View(), ShardedPool.EnterDrain(w))
      modifies this`numDrained, this`workers, this`pausers, this`drain, this`touched
      ensures Valid() && View() == Apply(false, old(View()), ShardedPool.EnterDrain(w))
      ensures sleep <==> shards[w] == 0 && drainThreads
    {
      Go(false, View(), ShardedPool.EnterDrain(w), Apply(false, View(), ShardedPool.EnterDrain(w)));
      sleep := DrainSection(w);
    }

    method DrainSection(w: nat) returns (sleep: bool)
      requires |workers| == |shards| && Enabled(false, View(), ShardedPool.EnterDrain(w))
      modifies this`numDrained, this`workers, this`pausers, this`drain, this`touched
      ensures View() == Apply(false, old(View()), ShardedPool.EnterDrain(w))
      ensures sleep <==> shards[w] == 0 && drainThreads
    {
      sleep := false;
      if shards[w] == 0 {
        numDrained := numDrained + 1;
        Notify();
        sleep := drainThreads;
        if sleep {
          touched := touched - {w};
          workers := workers[w := DrainParked(epoch, true)];
        } else {
          numDrained := numDrained - 1;
          workers := workers[w := Process];
        }
      } else {
        workers := workers[w := Process];
      }
    }

    method LeaveDrain(ghost w: nat) returns (sleep: bool)
      requires Valid() && Enabled(false, View(), ShardedPool.LeaveDrain(w))
      modifies this`numDrained, this`workers
      ensures Valid() && View() == Apply(false, old(View()), ShardedPool.LeaveDrain(w)) && sleep == drainThreads
    {
      Go(false, View(), ShardedPool.LeaveDrain(w), Apply(false, View(), ShardedPool.LeaveDrain(w)));
      sleep := drainThreads;
      if sleep {
        workers := workers[w := DrainParked(workers[w].epoch, true)];
      } else {
        numDrained := numDrained - 1;
        workers := workers[w := Process];
      }
    }

    /** The first section of pause(); true means that it has to wait. */
    method Pause() returns (wait: bool)
      requires Valid()
      modifies this`pauseThreads, this`pausers, this`paused
      ensures Valid() && View() == Apply(false, old(View()), CallPause)
      ensures |pausers| == |old(pausers)| + 1 && (wait <==> !pausers[|old(pausers)|].PauseReturned?)
      ensures wait <==> !AllPauseParked(View())
      ensures !wait ==> Held(View())
    {
      FullMeansParked(View());
      Go(false, View(), CallPause, Apply(false, View(), CallPause));
      pauseThreads := true;
      wait := numThreads != numPaused;
      pausers := pausers + [if wait then PauseAsleep else PauseReturned];
      paused := paused || !wait;
    }

    method RecheckPause(ghost c: nat) returns (wait: bool)
      requires Valid() && c < |pausers| && pausers[c].PauseAwake?
      modifies this`pausers, this`paused
      ensures Valid() && View() == Apply(false, old(View()), PauserRecheck(c))
      ensures |pausers| == |old(pausers)| && (wait <==> !pausers[c].PauseReturned?)
      ensures wait <==> !AllPauseParked(View())
      ensures !wait ==> (Held(View()) <==> pauseThreads)
    {
      FullMeansParked(View());
      Go(false, View(), PauserRecheck(c), Apply(false, View(), PauserRecheck(c)));
      wait := numThreads != numPaused;
      pausers := pausers[c := if wait then PauseAsleep else PauseReturned];
      paused := paused || !wait;
    }

    method Unpause()
      requires Valid()
      modifies this`pauseThreads, this`paused, this`workers
      ensures Valid() && View() == Apply(false, old(View()), ShardedPool.Unpause)
    {
      Go(false, View(), ShardedPool.Unpause, Apply(false, View(), ShardedPool.Unpause));
      pauseThreads := false;
      paused := false;
      workers := WakeWorkers(workers);
    }

    /** One evaluation of drain()'s loop condition, and its end when the condition is false. */
    method DecideDrain() returns (wait: bool)
      requires |workers| == numThreads
      modifies this`drainThreads, this`drain, this`workers
      ensures View() == DrainDecides(old(View())) && (wait <==> !drain.NoDrain?)
    {
      wait := numThreads != numDrained;
      if wait {
        drain := DrainAsleep;
      } else {
        drainThreads := false;
        drain := NoDrain;
        workers := WakeWorkers(workers);
      }
    }

    /** The first section of drain(). */
    method Drain() returns (wait: bool)
      requires Valid() && drain.NoDrain?
      modifies this`drainThreads, this`drain, this`workers, this`epoch, this`entry
      ensures Valid() && View() == Apply(false, old(View()), CallDrain) && (wait <==> !drain.NoDrain?)
      ensures wait <==> !AllDrainParked(old(View()))
      ensures !wait ==> Drained(View()) && entry == numDrained
    {
      ReturnDrains(View(), CallDrain);
      Go(false, View(), CallDrain, Apply(false, View(), CallDrain));
      wait := BeginDrain();
    }

    method BeginDrain() returns (wait: bool)
      requires |workers| == numThreads && drain.NoDrain?
      modifies this`drainThreads, this`drain, this`workers, this`epoch, this`entry
      ensures View() == Apply(false, old(View()), CallDrain) && (wait <==> !drain.NoDrain?)
    {
      epoch, entry := epoch + 1, numDrained;
      drainThreads := true;
      wait := DecideDrain();
    }

    method RecheckDrain() returns (wait: bool)
      requires Valid() && drain.DrainAwake?
      modifies this`drainThreads, this`drain, this`workers
      ensures Valid() && View() == Apply(false, old(View()), DrainRecheck) && (wait <==> !drain.NoDrain?)
      ensures wait <==> !AllDrainParked(old(View()))
      ensures !wait ==> Drained(View())
    {
      ReturnDrains(View(), DrainRecheck);
      Go(false, View(), DrainRecheck, Apply(false, View(), DrainRecheck));
      wait := DecideDrain();
    }
  }

  lemma FullMeansParked(s: State)
    requires Reachable(false, s)
    ensures s.numPaused == |s.workers| <==> AllPauseParked(s)
  {
    ReachableInv(false, s);
    FullMeansAllParked(s);
  }

  lemma ReturnDrains(s: State, a: Action)
    requires Reachable(false, s) && Enabled(false, s, a) && (a.CallDrain? || a.DrainRecheck?)
    ensures Apply(false, s, a).drain.NoDrain? <==> AllDrainParked(s)
    ensures Apply(false, s, a).drain.NoDrain? ==> Drained(Apply(false, s, a))
  {
    ReachableInv(false, s);
    DrainEndsExactly(false, s, a);
    if Apply(false, s, a).drain.NoDrain? {
      ReturnedMeansDrained(false, s, a);
    }
  }
}
