/**
 What the barriers of the sharded pool promise, for every state of every run, and two runs that
 show why the conditions on their use are needed.
 */
module ShardedGuarantees {
  import opened Counting
  import opened ShardedPool

  ghost predicate Inv(strict: bool, s: State) {
    CountInv(s) && ControllersSleep(s) && WorkersSleep(s) && DrainInv(s) && (strict ==> PauseInv(s))
  }

  lemma ApplyKeeps(strict: bool, s: State, a: Action)
    requires Inv(strict, s) && Enabled(strict, s, a)
    ensures Inv(strict, Apply(strict, s, a))
  {
    CountKept(strict, s, a);
    ControllersSleepKept(strict, s, a);
    WorkersSleepKept(strict, s, a);
    DrainKept(strict, s, a);
    if strict {
      PauseKept(s, a);
    }
  }

  lemma {:induction false} RunKeepsInv(strict: bool, states: seq<State>, actions: seq<Action>, i: nat)
    requires IsRun(strict, states, actions) && i < |states|
    ensures Inv(strict, states[i])
  {
    if i == 0 {
      CountPositive(states[0].workers, IsPauseParked);
      CountPositive(states[0].workers, IsDrainParked);
    } else {
      RunKeepsInv(strict, states, actions, i - 1);
      ApplyKeeps(strict, states[i - 1], actions[i - 1]);
    }
  }

  // ---------- reachable states ----------

  /** Some run leads to the state. */
  ghost predicate Reachable(strict: bool, s: State) {
    exists states: seq<State>, actions: seq<Action> :: IsRun(strict, states, actions) && states[|states| - 1] == s
  }

  lemma Begin(strict: bool, s: State)
    requires Initial(s)
    ensures Reachable(strict, s)
  {
    var none: seq<Action> := [];
    assert IsRun(strict, [s], none) && [s][|[s]| - 1] == s;
  }

  /** One more step. */
  lemma Go(strict: bool, s: State, a: Action, s': State)
    requires Reachable(strict, s) && Enabled(strict, s, a) && Apply(strict, s, a) == s'
    ensures Reachable(strict, s')
  {
    var states: seq<State>, actions: seq<Action> :| IsRun(strict, states, actions) && states[|states| - 1] == s;
    var states', actions' := states + [s'], actions + [a];
    forall i | 0 <= i < |actions'|
      ensures Enabled(strict, states'[i], actions'[i]) && states'[i + 1] == Apply(strict, states'[i], actions'[i])
    {
      if i < |actions| {
        assert states'[i] == states[i] && states'[i + 1] == states[i + 1] && actions'[i] == actions[i];
      }
    }
    assert IsRun(strict, states', actions');
  }

  lemma ReachableInv(strict: bool, s: State)
    requires Reachable(strict, s)
    ensures Inv(strict, s)
  {
    var states: seq<State>, actions: seq<Action> :| IsRun(strict, states, actions) && states[|states| - 1] == s;
    RunKeepsInv(strict, states, actions, |states| - 1);
  }

  /** The counters count the workers in the parked regions, in every state of every run. */
  lemma ParkedAreCounted(strict: bool, states: seq<State>, actions: seq<Action>, i: nat)
    requires IsRun(strict, states, actions) && i < |states|
    ensures states[i].numPaused == Count(states[i].workers, IsPauseParked)
    ensures states[i].numDrained == Count(states[i].workers, IsDrainParked)
  {
    RunKeepsInv(strict, states, actions, i);
  }

  // ---------- wake-ups ----------

  /** No lost wake-ups, unlocked flag reads notwithstanding: a pause() or drain() asleep un-notified
      is still short of a worker, and a parked worker asleep un-notified has its flag up. */
  lemma NoLostWakeUps(strict: bool, states: seq<State>, actions: seq<Action>, i: nat)
    requires IsRun(strict, states, actions) && i < |states|
    ensures ControllersSleep(states[i]) && WorkersSleep(states[i])
  {
    RunKeepsInv(strict, states, actions, i);
  }

  // ---------- pause ----------

  ghost predicate AllPauseParked(s: State) {
    forall w | 0 <= w < |s.workers| :: s.workers[w].PauseParked?
  }

  /** Call `c` of pause() returns between the two states. */
  ghost predicate PauserReturns(s: State, s': State, c: nat) {
    && c < |s'.pausers| && s'.pausers[c].PauseReturned?
    && !(c < |s.pausers| && s.pausers[c].PauseReturned?)
  }

  /** A pause() returns only from its loop condition, and only when all workers are parked. */
  lemma PauserReturnsFull(strict: bool, s: State, a: Action, c: nat)
    requires CountInv(s) && Enabled(strict, s, a) && PauserReturns(s, Apply(strict, s, a), c)
    ensures (a.CallPause? || a.PauserRecheck?) && s.numPaused == |s.workers| && AllPauseParked(s)
  {
    PauserReturnsFrom(strict, s, a, c);
    FullMeansAllParked(s);
  }

  lemma PauserReturnsFrom(strict: bool, s: State, a: Action, c: nat)
    requires Enabled(strict, s, a) && PauserReturns(s, Apply(strict, s, a), c)
    ensures (a.CallPause? || a.PauserRecheck?) && s.numPaused == |s.workers|
  {
  }

  lemma FullMeansAllParked(s: State)
    requires CountInv(s)
    ensures s.numPaused == |s.workers| <==> AllPauseParked(s)
  {
    CountFull(s.workers, IsPauseParked);
    assert AllPauseParked(s) <==> forall w | 0 <= w < |s.workers| :: IsPauseParked(s.workers[w]);
  }

  /** And it does return when it finds them so, at once or after a wake-up. */
  lemma PauseEndsExactly(strict: bool, s: State, a: Action)
    requires CountInv(s) && Enabled(strict, s, a) && (a.CallPause? || a.PauserRecheck?)
    ensures PauserReturns(s, Apply(strict, s, a), if a.PauserRecheck? then a.c else |s.pausers|) <==> AllPauseParked(s)
  {
    FullMeansAllParked(s);
  }

  /** From `s` the workers and controllers can go on to `s'`. */
  ghost predicate Continues(s: State, states: seq<State>, actions: seq<Action>, s': State) {
    && |states| == |actions| + 1 && states[0] == s && states[|states| - 1] == s'
    && forall i | 0 <= i < |actions| ::
         Enabled(false, states[i], actions[i]) && states[i + 1] == Apply(false, states[i], actions[i])
  }

  /** They can do so without any unpause(). */
  ghost predicate LeadsTo(s: State, states: seq<State>, actions: seq<Action>, s': State) {
    Continues(s, states, actions, s') && forall i | 0 <= i < |actions| :: !actions[i].Unpause?
  }

  /** Until the next unpause() every worker is parked, however all of them are scheduled. */
  ghost predicate StaysParked(s: State) {
    forall states, actions, s' :: LeadsTo(s, states, actions, s') ==> AllPauseParked(s')
  }

  /** All workers are parked and the flag is up. */
  ghost predicate Held(s: State) {
    s.pauseFlag && AllPauseParked(s)
  }

  lemma OnlyUnpauseFrees(s: State, a: Action)
    requires Held(s) && Enabled(false, s, a) && !a.Unpause?
    ensures Held(Apply(false, s, a))
  {
  }

  lemma {:induction false} HeldStays(s: State, states: seq<State>, actions: seq<Action>, s': State)
    requires Held(s) && LeadsTo(s, states, actions, s')
    ensures Held(s')
    decreases |actions|
  {
    if actions != [] {
      var n := |actions| - 1;
      assert LeadsTo(s, states[..n + 1], actions[..n], states[n]);
      HeldStays(s, states[..n + 1], actions[..n], states[n]);
      OnlyUnpauseFrees(states[n], actions[n]);
    }
  }

  lemma HeldMeansParked(s: State)
    requires Held(s)
    ensures StaysParked(s)
  {
    forall states, actions, s' | LeadsTo(s, states, actions, s') ensures AllPauseParked(s') {
      HeldStays(s, states, actions, s');
    }
  }

  /** A worker that finds the flag down leaves. */
  lemma FlagDownFrees(s: State)
    requires WorkersSleep(s) && AllPauseParked(s) && s.workers != [] && !s.pauseFlag
    ensures !StaysParked(s)
  {
    var s' := Apply(false, s, LeavePause(0));
    assert s'.workers[0] == TestDrain;
    assert LeadsTo(s, [s, s'], [LeavePause(0)], s');
  }

  /** Among the first n steps there is a call of pause() with no unpause() after it. */
  ghost predicate PausedLast(actions: seq<Action>, n: nat)
    requires n <= |actions|
  {
    exists k :: 0 <= k < n && PausedAt(actions, k, n)
  }

  ghost predicate PausedAt(actions: seq<Action>, k: int, n: nat)
    requires 0 <= k < n <= |actions|
  {
    actions[k].CallPause? && forall j | k < j < n :: !actions[j].Unpause?
  }

  lemma PausedLastStep(actions: seq<Action>, n: nat)
    requires n < |actions|
    ensures PausedLast(actions, n + 1) <==>
              actions[n].CallPause? || (!actions[n].Unpause? && PausedLast(actions, n))
  {
    if actions[n].CallPause? {
      assert PausedAt(actions, n, n + 1);
    }
    if k :| 0 <= k < n && PausedAt(actions, k, n) {
      assert PausedAt(actions, k, n + 1) <==> !actions[n].Unpause?;
    }
    var next := n + 1;
    if k :| 0 <= k < next && PausedAt(actions, k, next) {
      assert k < n ==> PausedAt(actions, k, n);
    }
  }

  lemma FlagStep(strict: bool, s: State, a: Action)
    requires Enabled(strict, s, a)
    ensures Apply(strict, s, a).pauseFlag <==> a.CallPause? || (!a.Unpause? && s.pauseFlag)
  {
  }

  /** The flag, seen by its callers: it is up if and only if the latest of the pause() and unpause()
      calls was a pause(). */
  lemma {:induction false} FlagMeansPausedLast(strict: bool, states: seq<State>, actions: seq<Action>, n: nat)
    requires IsRun(strict, states, actions) && n <= |actions|
    ensures states[n].pauseFlag <==> PausedLast(actions, n)
  {
    if n > 0 {
      FlagMeansPausedLast(strict, states, actions, n - 1);
      FlagStep(strict, states[n - 1], actions[n - 1]);
      PausedLastStep(actions, n - 1);
    }
  }

  /** When a pause() returns, every worker is parked, whatever other controllers did meanwhile.  They
      stay parked until the next unpause(), in every continuation, if and only if no unpause() has run
      since the latest call of pause(). */
  lemma PauseHoldsExactly(states: seq<State>, actions: seq<Action>, i: nat, c: nat)
    requires IsRun(false, states, actions) && i < |actions| && PauserReturns(states[i], states[i + 1], c)
    requires states[i].workers != []
    ensures AllPauseParked(states[i + 1])
    ensures PausedLast(actions, i + 1) <==> StaysParked(states[i + 1])
  {
    var s := states[i + 1];
    RunKeepsInv(false, states, actions, i);
    PauserReturnsFull(false, states[i], actions[i], c);
    RunKeepsInv(false, states, actions, i + 1);
    FlagMeansPausedLast(false, states, actions, i + 1);
    CountFull(s.workers, IsPauseParked);
    assert forall w | 0 <= w < |s.workers| :: IsPauseParked(s.workers[w]);
    if s.pauseFlag {
      HeldMeansParked(s);
    } else {
      FlagDownFrees(s);
    }
  }

  /** A pause() that waits for more workers than are parked, with the flag down. */
  ghost predicate Forgotten(s: State, c: nat) {
    c < |s.pausers| && !s.pausers[c].PauseReturned? && !s.pauseFlag && s.numPaused < |s.workers|
  }

  lemma ForgottenStep(s: State, a: Action, c: nat)
    requires Forgotten(s, c) && Enabled(false, s, a) && !a.CallPause?
    ensures Forgotten(Apply(false, s, a), c)
  {
  }

  lemma {:induction false} ForgottenStays(s: State, states: seq<State>, actions: seq<Action>, s': State, c: nat)
    requires Forgotten(s, c) && Continues(s, states, actions, s')
    requires forall i | 0 <= i < |actions| :: !actions[i].CallPause?
    ensures Forgotten(s', c)
    decreases |actions|
  {
    if actions != [] {
      var n := |actions| - 1;
      assert Continues(s, states[..n + 1], actions[..n], states[n]);
      ForgottenStays(s, states[..n + 1], actions[..n], states[n], c);
      ForgottenStep(states[n], actions[n], c);
    }
  }

  /** A pause() that sleeps when the latest of the pause() and unpause() calls was an unpause() does not
      return in any continuation, unless pause() is called again. */
  lemma UnpausedPauserHangs(states: seq<State>, actions: seq<Action>, i: nat, c: nat,
                            more: seq<State>, steps: seq<Action>, s': State)
    requires IsRun(false, states, actions) && i < |states| && c < |states[i].pausers|
    requires states[i].pausers[c].PauseAsleep? && !PausedLast(actions, i)
    requires Continues(states[i], more, steps, s') && forall j | 0 <= j < |steps| :: !steps[j].CallPause?
    ensures c < |s'.pausers| && !s'.pausers[c].PauseReturned?
  {
    RunKeepsInv(false, states, actions, i);
    FlagMeansPausedLast(false, states, actions, i);
    CountFull(states[i].workers, IsPauseParked);
    ForgottenStays(states[i], more, steps, s', c);
  }

  /** The pause barrier: with no unpause() while a pause() waits, from the return of a pause() until
      the next unpause() every worker is parked and none is in _process. */
  lemma PauseBarrier(states: seq<State>, actions: seq<Action>, i: nat, j: nat, c: nat)
    requires IsRun(true, states, actions) && i < j < |states| && PauserReturns(states[i], states[i + 1], c)
    requires forall k | i < k < j :: !actions[k].Unpause?
    ensures Held(states[j])
  {
    ReturnHoldsInRun(states, actions, i, c);
    HeldUntil(states, actions, i + 1, j);
  }

  lemma {:induction false} HeldUntil(states: seq<State>, actions: seq<Action>, i: nat, j: nat)
    requires IsRun(true, states, actions) && i <= j < |states| && Held(states[i])
    requires forall k | i <= k < j :: !actions[k].Unpause?
    ensures Held(states[j])
    decreases j
  {
    if i < j {
      HeldUntil(states, actions, i, j - 1);
      HeldInRun(states, actions, j - 1);
    }
  }

  lemma ReturnHoldsInRun(states: seq<State>, actions: seq<Action>, i: nat, c: nat)
    requires IsRun(true, states, actions) && i < |actions| && PauserReturns(states[i], states[i + 1], c)
    ensures Held(states[i + 1])
  {
    RunKeepsInv(true, states, actions, i);
    PauserReturnsFull(true, states[i], actions[i], c);
    ReturnHolds(states[i], actions[i]);
  }

  lemma HeldInRun(states: seq<State>, actions: seq<Action>, k: nat)
    requires IsRun(true, states, actions) && k < |actions| && Held(states[k]) && !actions[k].Unpause?
    ensures Held(states[k + 1])
  {
    OnlyUnpauseFrees(states[k], actions[k]);
  }

  lemma ReturnHolds(s: State, a: Action)
    requires Inv(true, s) && Enabled(true, s, a) && (a.CallPause? || a.PauserRecheck?) && s.numPaused == |s.workers|
    ensures Held(Apply(true, s, a))
  {
    CountFull(s.workers, IsPauseParked);
    assert forall w | 0 <= w < |s.workers| :: IsPauseParked(s.workers[w]);
  }

  // ---------- drain ----------

  ghost predicate AllDrainParked(s: State) {
    forall w | 0 <= w < |s.workers| :: s.workers[w].DrainParked?
  }

  /** A drain() was under way, or begins in this step, and is over in the next state. */
  ghost predicate DrainEnds(s: State, a: Action, s': State) {
    (!s.drain.NoDrain? || a.CallDrain?) && s'.drain.NoDrain?
  }

  /** A drain() ends only from its loop condition, and only when all workers are parked. */
  lemma DrainEndsFull(strict: bool, s: State, a: Action)
    requires CountInv(s) && Enabled(strict, s, a) && DrainEnds(s, a, Apply(strict, s, a))
    ensures (a.CallDrain? || a.DrainRecheck?) && s.numDrained == |s.workers| && AllDrainParked(s)
  {
    CountFull(s.workers, IsDrainParked);
    assert AllDrainParked(s) <==> forall w | 0 <= w < |s.workers| :: IsDrainParked(s.workers[w]);
  }

  /** And it does end when it finds them so, at once or after a wake-up; then the flag is down. */
  lemma DrainEndsExactly(strict: bool, s: State, a: Action)
    requires CountInv(s) && DrainInv(s) && Enabled(strict, s, a) && (a.CallDrain? || a.DrainRecheck?)
    ensures DrainEnds(s, a, Apply(strict, s, a)) <==> AllDrainParked(s)
    ensures Apply(strict, s, a).drainFlag <==> !AllDrainParked(s)
  {
    CountFull(s.workers, IsDrainParked);
    assert AllDrainParked(s) <==> forall w | 0 <= w < |s.workers| :: IsDrainParked(s.workers[w]);
  }

  lemma DrainStep(strict: bool, s: State, a: Action)
    requires Inv(strict, s) && Enabled(strict, s, a) && DrainEnds(s, a, Apply(strict, s, a))
    ensures var s' := Apply(strict, s, a);
            && (forall w | 0 <= w < |s'.workers| :: s'.workers[w].DrainParked?)
            && Count(s'.workers, StaleIn(s'.epoch)) == s'.entry
            && (a.CallDrain? ==> s'.entry == s.numDrained)
  {
    var s' := Apply(strict, s, a);
    DrainEndsFull(strict, s, a);
    assert s'.workers == WakeWorkers(s.workers);
    CountFull(s.workers, IsDrainParked);
    assert forall w | 0 <= w < |s.workers| :: IsDrainParked(s.workers[w]);
    StaleStaysCounted(s.workers, s'.epoch);
    if a.CallDrain? {
      CountAlike(s.workers, IsDrainParked, StaleIn(s'.epoch));
    }
  }

  lemma StaleStaysCounted(ws: seq<WorkerPc>, epoch: nat)
    ensures Count(WakeWorkers(ws), StaleIn(epoch)) == Count(ws, StaleIn(epoch))
  {
    CountSame(ws, WakeWorkers(ws), StaleIn(epoch));
  }

  /** What holds when a drain() has returned: every worker is parked and none is in _process, and every
      shard that received nothing since its worker parked is empty.  Every worker saw its shard empty
      after this drain began if and only if num_drained was zero when it began. */
  ghost predicate Drained(s: State) {
    && AllDrainParked(s)
    && |s.shards| == |s.workers|
    && (forall w | 0 <= w < |s.workers| && w !in s.touched :: s.shards[w] == 0)
    && ((forall w | 0 <= w < |s.workers| :: s.workers[w].epoch == s.epoch) <==> s.entry == 0)
  }

  lemma ReturnedMeansDrained(strict: bool, s: State, a: Action)
    requires Inv(strict, s) && Enabled(strict, s, a) && DrainEnds(s, a, Apply(strict, s, a))
    ensures Drained(Apply(strict, s, a))
  {
    var s' := Apply(strict, s, a);
    DrainKept(strict, s, a);
    DrainStep(strict, s, a);
    CountPositive(s'.workers, StaleIn(s'.epoch));
    if w :| 0 <= w < |s'.workers| && s'.workers[w].epoch != s'.epoch {
      assert StaleIn(s'.epoch)(s'.workers[w]);
    }
  }

  /** The drain barrier, for every return of a drain() in every run; `entry` is num_drained as the
      drain found it. */
  lemma DrainBarrier(strict: bool, states: seq<State>, actions: seq<Action>, i: nat)
    requires IsRun(strict, states, actions) && i < |actions| && DrainEnds(states[i], actions[i], states[i + 1])
    ensures Drained(states[i + 1]) && (actions[i].CallDrain? ==> states[i + 1].entry == states[i].numDrained)
  {
    RunKeepsInv(strict, states, actions, i);
    ReturnedMeansDrained(strict, states[i], actions[i]);
    DrainStep(strict, states[i], actions[i]);
  }

  // ---------- single steps of a worker ----------

  /** What a worker makes of the flag it reads: it leaves on stop_threads, and takes the lock on
      pause_threads and on drain_threads; with both down it goes on to _process. */
  lemma ReadingDecides(strict: bool, s: State, w: nat)
    requires Enabled(strict, s, Test(w))
    ensures var pc, pc' := s.workers[w], Apply(strict, s, Test(w)).workers[w];
            && (pc'.Exited? <==> pc.Top? && s.stopFlag) && (pc'.TestPause? <==> pc.Top? && !s.stopFlag)
            && (pc'.WantPause? <==> pc.TestPause? && s.pauseFlag) && (pc'.TestDrain? <==> pc.TestPause? && !s.pauseFlag)
            && (pc'.WantDrain? <==> pc.TestDrain? && s.drainFlag) && (pc'.Process? <==> pc.TestDrain? && !s.drainFlag)
  {
  }

  /** With the lock, a worker parks for a pause exactly while the flag is up, and goes on to the drain. */
  lemma ParkingForPause(strict: bool, s: State, a: Action)
    requires AtPause(a) && Enabled(strict, s, a)
    ensures var pc' := Apply(strict, s, a).workers[a.w];
            && (pc'.PauseParked? <==> s.pauseFlag) && (pc'.TestDrain? <==> !s.pauseFlag)
            && (pc'.PauseParked? ==> pc'.asleep)
  {
  }

  /** It parks for a drain exactly while that flag is up, if it found its shard empty; otherwise it goes
      on to _process. */
  lemma ParkingForDrain(strict: bool, s: State, a: Action)
    requires AtDrain(a) && Enabled(strict, s, a)
    ensures var pc' := Apply(strict, s, a).workers[a.w];
            && (pc'.DrainParked? <==> s.drainFlag && (a.EnterDrain? ==> s.shards[a.w] == 0))
            && (pc'.DrainParked? ==> pc'.asleep) && (!pc'.DrainParked? ==> pc'.Process?)
  {
  }

  /** After _process a worker starts over with the flags, and a wake-up or timeout alone frees nobody. */
  lemma StartingOver(strict: bool, s: State, a: Action)
    requires (a.ProcessItems? || a.WorkerTimeout?) && Enabled(strict, s, a)
    ensures var pc, pc' := s.workers[a.w], Apply(strict, s, a).workers[a.w];
            && (a.ProcessItems? ==> pc'.Top?)
            && (a.WorkerTimeout? ==> (pc'.PauseParked? <==> pc.PauseParked?) && (pc'.DrainParked? <==> pc.DrainParked?)
                                     && (pc'.PauseParked? || pc'.DrainParked? ==> !pc'.asleep))
  {
  }

  /** The stop flag is up exactly from the first stop() on. */
  lemma {:induction false} StopFlagMeansStopped(strict: bool, states: seq<State>, actions: seq<Action>, n: nat)
    requires IsRun(strict, states, actions) && n < |states|
    ensures states[n].stopFlag <==> Stopped(actions, n)
  {
    if n > 0 {
      StopFlagMeansStopped(strict, states, actions, n - 1);
      StopFlagInRun(strict, states, actions, n - 1);
    }
  }

  /** stop() was called in one of the first n steps. */
  ghost predicate Stopped(actions: seq<Action>, n: nat)
    requires n <= |actions|
  {
    exists k :: 0 <= k < n && actions[k].Stop?
  }

  lemma StopFlagInRun(strict: bool, states: seq<State>, actions: seq<Action>, i: nat)
    requires IsRun(strict, states, actions) && i < |actions|
    ensures states[i + 1].stopFlag <==> states[i].stopFlag || actions[i].Stop?
  {
    StopFlagStep(strict, states[i], actions[i]);
  }

  lemma StopFlagStep(strict: bool, s: State, a: Action)
    requires Enabled(strict, s, a)
    ensures Apply(strict, s, a).stopFlag <==> s.stopFlag || a.Stop?
  {
  }

  /** Every unlocked read, in terms of the calls made before it: a worker leaves exactly after a stop(),
      goes to park exactly when the latest of the pause() and unpause() calls was a pause() or a drain()
      is under way, and otherwise goes on, in the end to _process. */
  lemma ReadingFollowsCalls(strict: bool, states: seq<State>, actions: seq<Action>, i: nat)
    requires IsRun(strict, states, actions) && i < |actions| && actions[i].Test?
    ensures var pc, pc' := states[i].workers[actions[i].w], states[i + 1].workers[actions[i].w];
            && (pc.Top? ==> if Stopped(actions, i) then pc'.Exited? else pc'.TestPause?)
            && (pc.TestPause? ==> if PausedLast(actions, i) then pc'.WantPause? else pc'.TestDrain?)
            && (pc.TestDrain? ==> if states[i].drain.NoDrain? then pc'.Process? else pc'.WantDrain?)
  {
    RunKeepsInv(strict, states, actions, i);
    StopFlagMeansStopped(strict, states, actions, i);
    FlagMeansPausedLast(strict, states, actions, i);
    ReadingDecides(strict, states[i], actions[i].w);
  }

  /** Every decision to park or to leave under the lock, in the same terms: parked for a pause exactly
      while the latest call was a pause(), and for a drain exactly while one is under way, if the worker
      found its shard empty; a worker not parked for a drain is in _process. */
  lemma ParkingFollowsCalls(strict: bool, states: seq<State>, actions: seq<Action>, i: nat)
    requires IsRun(strict, states, actions) && i < |actions| && (AtPause(actions[i]) || AtDrain(actions[i]))
    ensures var s, a, pc' := states[i], actions[i], states[i + 1].workers[actions[i].w];
            && (AtPause(a) ==> if PausedLast(actions, i) then pc' == PauseParked(true) else pc'.TestDrain?)
            && (AtDrain(a) ==> if !s.drain.NoDrain? && (a.EnterDrain? ==> s.shards[a.w] == 0)
                               then pc'.DrainParked? && pc'.asleep else pc'.Process?)
  {
    RunKeepsInv(strict, states, actions, i);
    FlagMeansPausedLast(strict, states, actions, i);
    if AtPause(actions[i]) {
      ParkingForPause(strict, states[i], actions[i]);
    } else {
      ParkingForDrain(strict, states[i], actions[i]);
    }
  }

  // ---------- why the conditions are needed ----------

  /** One worker, with the given phase and count of drained workers, and nothing paused. */
  function OneWorker(pc: WorkerPc, drained: int, drain: DrainPc, epoch: nat): (s: State) {
    State(false, false, !drain.NoDrain?, 0, drained, [pc], [0], [], false, drain, epoch, 0, {})
  }

  lemma ReachesTestDrain(strict: bool)
    ensures Reachable(strict, OneWorker(TestDrain, 0, NoDrain, 0))
  {
    Begin(strict, OneWorker(Top, 0, NoDrain, 0));
    Go(strict, OneWorker(Top, 0, NoDrain, 0), Test(0), OneWorker(TestPause, 0, NoDrain, 0));
    Go(strict, OneWorker(TestPause, 0, NoDrain, 0), Test(0), OneWorker(TestDrain, 0, NoDrain, 0));
  }

  /** The worker parks in a drain; the drain returns, and the worker has not yet left. */
  lemma ParkedAfterDrain()
    ensures Reachable(true, OneWorker(DrainParked(1, false), 1, NoDrain, 1))
  {
    ReachesTestDrain(true);
    Go(true, OneWorker(TestDrain, 0, NoDrain, 0), CallDrain, OneWorker(TestDrain, 0, DrainAsleep, 1));
    Go(true, OneWorker(TestDrain, 0, DrainAsleep, 1), Test(0), OneWorker(WantDrain, 0, DrainAsleep, 1));
    ParksAndReturns();
  }

  lemma ParksAndReturns()
    requires Reachable(true, OneWorker(WantDrain, 0, DrainAsleep, 1))
    ensures Reachable(true, OneWorker(DrainParked(1, false), 1, NoDrain, 1))
  {
    var parked := OneWorker(DrainParked(1, true), 1, DrainAwake, 1);
    Go(true, OneWorker(WantDrain, 0, DrainAsleep, 1), EnterDrain(0), parked);
    Go(true, parked, DrainRecheck, OneWorker(DrainParked(1, false), 1, NoDrain, 1));
  }

  /** A second drain() right after can return at once, on the count left over from the first, with
      an item waiting in the shard. */
  lemma BackToBackDrainReturnsEarly()
    ensures exists s :: Reachable(true, s) && Enabled(true, s, CallDrain)
                        && DrainEnds(s, CallDrain, Apply(true, s, CallDrain))
                        && |s.shards| == 1 && s.shards[0] > 0 && s.numDrained == 1
  {
    ParkedAfterDrain();
    var s := OneWorker(DrainParked(1, false), 1, NoDrain, 1);
    var s' := s.(shards := [1], touched := {0});
    Go(true, s, Enqueue(0), s');
    assert DrainEnds(s', CallDrain, Apply(true, s', CallDrain));
  }

  /** One worker and one pause() call. */
  function OnePauser(pc: WorkerPc, flag: bool, paused: int, pauser: PauserPc): (s: State) {
    State(false, flag, false, paused, 0, [pc], [0], [pauser], pauser.PauseReturned?, NoDrain, 0, 0, {})
  }

  lemma ParksForPause()
    ensures Reachable(false, OnePauser(PauseParked(true), true, 1, PauseAwake))
  {
    Begin(false, OneWorker(Top, 0, NoDrain, 0));
    Go(false, OneWorker(Top, 0, NoDrain, 0), Test(0), OneWorker(TestPause, 0, NoDrain, 0));
    Go(false, OneWorker(TestPause, 0, NoDrain, 0), CallPause, OnePauser(TestPause, true, 0, PauseAsleep));
    Go(false, OnePauser(TestPause, true, 0, PauseAsleep), Test(0), OnePauser(WantPause, true, 0, PauseAsleep));
    var parked := OnePauser(PauseParked(true), true, 1, PauseAwake);
    Go(false, OnePauser(WantPause, true, 0, PauseAsleep), EnterPause(0), parked);
  }

  /** An unpause() slips in between the last worker's parking and the return of the pause(). */
  lemma ReturnsAfterUnpause()
    ensures Reachable(false, OnePauser(PauseParked(false), false, 1, PauseReturned))
  {
    var woken := OnePauser(PauseParked(false), false, 1, PauseAwake);
    ParksForPause();
    Go(false, OnePauser(PauseParked(true), true, 1, PauseAwake), Unpause, woken);
    Go(false, woken, PauserRecheck(0), OnePauser(PauseParked(false), false, 1, PauseReturned));
  }

  /** That pause() has returned, and the worker goes on to _process. */
  lemma UnpauseDuringPauseBreaksIt()
    ensures exists s :: Reachable(false, s) && s.paused && |s.workers| == 1 && s.workers[0].Process?
  {
    var left := OnePauser(TestDrain, false, 0, PauseReturned);
    ReturnsAfterUnpause();
    Go(false, OnePauser(PauseParked(false), false, 1, PauseReturned), LeavePause(0), left);
    Go(false, left, Test(0), OnePauser(Process, false, 0, PauseReturned));
  }

  /** An unpause() right after a pause() has gone to sleep: the pause() is forgotten. */
  lemma UnpauseLeavesPauserAsleep()
    ensures exists s :: Reachable(false, s) && Forgotten(s, 0) && s.pausers[0].PauseAsleep?
  {
    var s0 := OneWorker(Top, 0, NoDrain, 0);
    var s1, s2 := OnePauser(Top, true, 0, PauseAsleep), OnePauser(Top, false, 0, PauseAsleep);
    Begin(false, s0);
    Go(false, s0, CallPause, s1);
    Go(false, s1, Unpause, s2);
    assert Forgotten(s2, 0);
  }
}
