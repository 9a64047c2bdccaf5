/**
 The pause and drain barriers of the sharded pool.  Workers read the flags without the lock and
 change the counters under it; each step below is one such read, one region under the lock, or
 one call of _process.  Any number of workers and of pause() callers take part, and one drain()
 at a time.
 */
module ShardedPool {
  import opened Counting

  datatype WorkerPc =
    | Top                                    // about to read stop_threads
    | TestPause                              // about to read pause_threads
    | WantPause                              // saw it set, wants the lock
    | PauseParked(asleep: bool)              // counted in num_paused
    | TestDrain                              // about to read drain_threads
    | WantDrain                              // saw it set, wants the lock
    | DrainParked(epoch: nat, asleep: bool)  // counted in num_drained; saw its shard empty in that drain
    | Process                                // in _process
    | Exited

  /** One call of pause() each. */
  datatype PauserPc = PauseAsleep | PauseAwake | PauseReturned

  datatype DrainPc = NoDrain | DrainAsleep | DrainAwake

  datatype State = State(
    stopFlag: bool,
    pauseFlag: bool,
    drainFlag: bool,
    numPaused: int,
    numDrained: int,
    workers: seq<WorkerPc>,
    shards: seq<nat>,                        // number of items waiting for each worker
    pausers: seq<PauserPc>,
    paused: bool,                            // a pause() has returned and no unpause() has run since
    drain: DrainPc,
    epoch: nat,                              // number of drains begun so far
    entry: int,                              // num_drained when the last drain began
    touched: set<nat>)                       // shards that received items after their worker parked

  datatype Action =
    | Test(w: nat)                           // the next unlocked read of a flag
    | EnterPause(w: nat)
    | LeavePause(w: nat)
    | EnterDrain(w: nat)
    | LeaveDrain(w: nat)
    | WorkerTimeout(w: nat)
    | ProcessItems(w: nat, n: nat)
    | Enqueue(w: nat)
    | CallPause
    | PauserRecheck(c: nat)
    | SpuriousWake(c: nat)
    | DrainSpuriousWake
    | Unpause
    | CallDrain
    | DrainRecheck
    | Stop

  // ---------- phases and wake-ups ----------

  predicate IsPauseParked(pc: WorkerPc) {
    pc.PauseParked?
  }

  predicate IsDrainParked(pc: WorkerPc) {
    pc.DrainParked?
  }

  /** Parked in an earlier drain than the current one. */
  function StaleIn(epoch: nat): (p: WorkerPc -> bool) {
    (pc: WorkerPc) => pc.DrainParked? && pc.epoch < epoch
  }

  function Woken(pc: WorkerPc): (r: WorkerPc) {
    match pc
    case PauseParked(_) => PauseParked(false)
    case DrainParked(epoch, _) => DrainParked(epoch, false)
    case _ => pc
  }

  function WakeWorkers(ws: seq<WorkerPc>): (r: seq<WorkerPc>)
    ensures |r| == |ws| && forall i | 0 <= i < |ws| :: r[i] == Woken(ws[i])
  {
    seq(|ws|, i requires 0 <= i < |ws| => Woken(ws[i]))
  }

  function WakePausers(ps: seq<PauserPc>): (r: seq<PauserPc>)
    ensures |r| == |ps| && forall i | 0 <= i < |ps| :: r[i] == if ps[i].PauseAsleep? then PauseAwake else ps[i]
  {
    seq(|ps|, i requires 0 <= i < |ps| => if ps[i].PauseAsleep? then PauseAwake else ps[i])
  }

  /** notify_all on wait_cond. */
  function NotifyControllers(s: State): (s': State) {
    s.(pausers := WakePausers(s.pausers), drain := if s.drain.DrainAsleep? then DrainAwake else s.drain)
  }

  function SetWorker(s: State, w: nat, pc: WorkerPc): (s': State)
    requires w < |s.workers|
  {
    s.(workers := s.workers[w := pc])
  }

  // ---------- steps ----------

  /** `strict`: no unpause() runs while a pause() waits. */
  ghost predicate Enabled(strict: bool, s: State, a: Action) {
    match a
    case Test(w) => w < |s.workers| && (s.workers[w].Top? || s.workers[w].TestPause? || s.workers[w].TestDrain?)
    case EnterPause(w) => w < |s.workers| && s.workers[w].WantPause?
    case LeavePause(w) => w < |s.workers| && s.workers[w] == PauseParked(false)
    case EnterDrain(w) => w < |s.workers| && s.workers[w].WantDrain? && w < |s.shards|
    case LeaveDrain(w) => w < |s.workers| && s.workers[w].DrainParked? && !s.workers[w].asleep
    case WorkerTimeout(w) => w < |s.workers|
    case ProcessItems(w, n) => w < |s.workers| && s.workers[w].Process? && w < |s.shards| && n <= s.shards[w]
    case Enqueue(w) => w < |s.shards|
    case CallPause => true
    case PauserRecheck(c) => c < |s.pausers| && s.pausers[c].PauseAwake?
    case SpuriousWake(c) => c < |s.pausers| && s.pausers[c].PauseAsleep?
    case DrainSpuriousWake => s.drain.DrainAsleep?
    case Unpause => strict ==> forall c | 0 <= c < |s.pausers| :: s.pausers[c].PauseReturned?
    case CallDrain => s.drain.NoDrain?
    case DrainRecheck => s.drain.DrainAwake?
    case Stop => true
  }

  ghost function ApplyTest(s: State, w: nat): (s': State)
    requires w < |s.workers|
  {
    match s.workers[w]
    case Top => SetWorker(s, w, if s.stopFlag then Exited else TestPause)
    case TestPause => SetWorker(s, w, if s.pauseFlag then WantPause else TestDrain)
    case _ => SetWorker(s, w, if s.drainFlag then WantDrain else Process)
  }

  /** The drainer holds the lock at its loop condition: leave, or sleep. */
  function DrainDecides(s: State): (s': State) {
    if s.numDrained == |s.workers|
    then s.(drainFlag := false, drain := NoDrain, workers := WakeWorkers(s.workers))
    else s.(drain := DrainAsleep)
  }

  ghost function Apply(strict: bool, s: State, a: Action): (s': State)
    requires Enabled(strict, s, a)
  {
    match a
    case Test(w) => ApplyTest(s, w)
    case EnterPause(w) =>
      var s1 := NotifyControllers(s);
      if s.pauseFlag then SetWorker(s1.(numPaused := s.numPaused + 1), w, PauseParked(true))
      else SetWorker(s1, w, TestDrain)
    case LeavePause(w) =>
      if s.pauseFlag then SetWorker(s, w, PauseParked(true))
      else SetWorker(s.(numPaused := s.numPaused - 1), w, TestDrain)
    case EnterDrain(w) =>
      if s.shards[w] != 0 then SetWorker(s, w, Process)
      else
        var s1 := NotifyControllers(s);
        if s.drainFlag
        then SetWorker(s1.(numDrained := s.numDrained + 1, touched := s.touched - {w}), w, DrainParked(s.epoch, true))
        else SetWorker(s1, w, Process)
    case LeaveDrain(w) =>
      if s.drainFlag then SetWorker(s, w, DrainParked(s.workers[w].epoch, true))
      else SetWorker(s.(numDrained := s.numDrained - 1), w, Process)
    case WorkerTimeout(w) => SetWorker(s, w, Woken(s.workers[w]))
    case ProcessItems(w, n) => SetWorker(s.(shards := s.shards[w := s.shards[w] - n]), w, Top)
    case Enqueue(w) => s.(shards := s.shards[w := s.shards[w] + 1], touched := s.touched + {w})
    case CallPause =>
      var full := s.numPaused == |s.workers|;
      s.(pauseFlag := true, paused := s.paused || full,
         pausers := s.pausers + [if full then PauseReturned else PauseAsleep])
    case PauserRecheck(c) =>
      var full := s.numPaused == |s.workers|;
      s.(paused := s.paused || full, pausers := s.pausers[c := if full then PauseReturned else PauseAsleep])
    case SpuriousWake(c) => s.(pausers := s.pausers[c := PauseAwake])
    case DrainSpuriousWake => s.(drain := DrainAwake)
    case Unpause => s.(pauseFlag := false, paused := false, workers := WakeWorkers(s.workers))
    case CallDrain => DrainDecides(s.(drainFlag := true, epoch := s.epoch + 1, entry := s.numDrained))
    case DrainRecheck => DrainDecides(s)
    case Stop => s.(stopFlag := true)
  }

  /** All workers have been started, the flags are down and nobody waits. */
  ghost predicate Initial(s: State) {
    && |s.shards| == |s.workers| && (forall w | 0 <= w < |s.workers| :: s.workers[w] == Top)
    && s == State(false, false, false, 0, 0, s.workers, s.shards, [], false, NoDrain, 0, 0, {})
  }

  ghost predicate IsRun(strict: bool, states: seq<State>, actions: seq<Action>) {
    && |states| == |actions| + 1 && Initial(states[0])
    && forall i | 0 <= i < |actions| ::
         Enabled(strict, states[i], actions[i]) && states[i + 1] == Apply(strict, states[i], actions[i])
  }

  // ---------- invariants ----------

  /** The counters count the workers in the parked regions. */
  ghost predicate CountInv(s: State) {
    && |s.shards| == |s.workers|
    && s.numPaused == Count(s.workers, IsPauseParked)
    && s.numDrained == Count(s.workers, IsDrainParked)
  }

  /** While a pause is in force every worker is parked; a waiting pause() has the flag up. */
  ghost predicate PauseInv(s: State) {
    && (s.paused ==> s.pauseFlag && forall w | 0 <= w < |s.workers| :: s.workers[w].PauseParked?)
    && (forall c | 0 <= c < |s.pausers| && !s.pausers[c].PauseReturned? :: s.pauseFlag)
  }

  /** A pause() or drain() that sleeps un-notified still has a worker to wait for. */
  ghost predicate ControllersSleep(s: State) {
    && (forall c | 0 <= c < |s.pausers| && s.pausers[c].PauseAsleep? :: s.numPaused != |s.workers|)
    && (s.drain.DrainAsleep? ==> s.numDrained != |s.workers|)
  }

  /** A parked worker that sleeps un-notified has its flag up. */
  ghost predicate WorkersSleep(s: State) {
    && (forall w | 0 <= w < |s.workers| && s.workers[w] == PauseParked(true) :: s.pauseFlag)
    && (forall w | 0 <= w < |s.workers| && s.workers[w].DrainParked? && s.workers[w].asleep :: s.drainFlag)
  }

  /** The drain flag is up exactly during a drain; workers parked before the drain began stay parked
      through it, and a parked worker's shard is empty unless it was touched. */
  ghost predicate DrainInv(s: State) {
    && |s.shards| == |s.workers|
    && (s.drainFlag <==> !s.drain.NoDrain?)
    && (s.drainFlag ==> Count(s.workers, StaleIn(s.epoch)) == s.entry)
    && (forall w | 0 <= w < |s.workers| && s.workers[w].DrainParked? ::
          s.workers[w].epoch <= s.epoch && (w !in s.touched ==> s.shards[w] == 0))
  }

  // ---------- preservation ----------

  predicate WorkerStep(a: Action) {
    a.Test? || a.EnterPause? || a.LeavePause? || a.EnterDrain? || a.LeaveDrain? || a.WorkerTimeout? || a.ProcessItems?
  }

  function Bit(b: bool): (n: int) {
    if b then 1 else 0
  }

  /** What a step of worker `w` does to the counters and the controllers. */
  ghost predicate CountedMove(s: State, s': State, w: nat) {
    && w < |s.workers| == |s'.workers| && |s'.shards| == |s.shards|
    && s'.workers == s.workers[w := s'.workers[w]]
    && s'.numPaused == s.numPaused - Bit(s.workers[w].PauseParked?) + Bit(s'.workers[w].PauseParked?)
    && s'.numDrained == s.numDrained - Bit(s.workers[w].DrainParked?) + Bit(s'.workers[w].DrainParked?)
    // a counter that grows wakes the controllers
    && (s'.numPaused > s.numPaused || s'.numDrained > s.numDrained ==>
          s'.pausers == WakePausers(s.pausers) && !s'.drain.DrainAsleep?)
    && (s'.pausers == s.pausers || s'.pausers == WakePausers(s.pausers))
    && (s'.drain.DrainAsleep? ==> s.drain.DrainAsleep?) && (s'.drain.NoDrain? <==> s.drain.NoDrain?)
  }

  /** What it does to the flags and to the drain: a worker parks in the current drain on seeing its
      shard empty, and stays parked while the flag is up. */
  ghost predicate DrainingMove(s: State, s': State, w: nat) {
    && w < |s.workers| == |s'.workers| && |s'.shards| == |s.shards| == |s.workers|
    && s'.workers == s.workers[w := s'.workers[w]]
    && s'.pauseFlag == s.pauseFlag && s'.drainFlag == s.drainFlag && s'.epoch == s.epoch && s'.entry == s.entry
    && (s'.drain.NoDrain? <==> s.drain.NoDrain?)
    && (s.workers[w].DrainParked? && s.drainFlag ==> s'.workers[w].DrainParked?)
    && (forall v | 0 <= v < |s.workers| && v != w ::
          s'.shards[v] == s.shards[v] && (v in s'.touched <==> v in s.touched))
    && (s'.workers[w].DrainParked? ==>
          if s.workers[w].DrainParked?
          then s'.workers[w].epoch == s.workers[w].epoch && s'.shards[w] == s.shards[w] && s'.touched == s.touched
          else s'.workers[w].epoch == s.epoch && s'.shards[w] == 0 && s.drainFlag)
  }

  predicate AtPause(a: Action) {
    a.EnterPause? || a.LeavePause?
  }

  predicate AtDrain(a: Action) {
    a.EnterDrain? || a.LeaveDrain?
  }

  lemma PauseStepCounts(strict: bool, s: State, a: Action)
    requires AtPause(a) && Enabled(strict, s, a)
    ensures CountedMove(s, Apply(strict, s, a), a.w)
  {
  }

  lemma DrainStepCounts(strict: bool, s: State, a: Action)
    requires AtDrain(a) && Enabled(strict, s, a)
    ensures CountedMove(s, Apply(strict, s, a), a.w)
  {
  }

  lemma OtherStepCounts(strict: bool, s: State, a: Action)
    requires WorkerStep(a) && !AtPause(a) && !AtDrain(a) && Enabled(strict, s, a)
    ensures CountedMove(s, Apply(strict, s, a), a.w)
  {
  }

  lemma WorkerStepCounts(strict: bool, s: State, a: Action)
    requires WorkerStep(a) && Enabled(strict, s, a)
    ensures CountedMove(s, Apply(strict, s, a), a.w)
  {
    if AtPause(a) {
      PauseStepCounts(strict, s, a);
    } else if AtDrain(a) {
      DrainStepCounts(strict, s, a);
    } else {
      OtherStepCounts(strict, s, a);
    }
  }

  lemma DrainStepDrains(strict: bool, s: State, a: Action)
    requires AtDrain(a) && Enabled(strict, s, a) && |s.shards| == |s.workers|
    ensures DrainingMove(s, Apply(strict, s, a), a.w)
  {
  }

  lemma OtherStepDrains(strict: bool, s: State, a: Action)
    requires WorkerStep(a) && !AtDrain(a) && Enabled(strict, s, a) && |s.shards| == |s.workers|
    ensures DrainingMove(s, Apply(strict, s, a), a.w)
  {
  }

  lemma WorkerStepDrains(strict: bool, s: State, a: Action)
    requires WorkerStep(a) && Enabled(strict, s, a) && |s.shards| == |s.workers|
    ensures DrainingMove(s, Apply(strict, s, a), a.w)
  {
    if AtDrain(a) {
      DrainStepDrains(strict, s, a);
    } else {
      OtherStepDrains(strict, s, a);
    }
  }

  lemma MoveKeepsCounts(s: State, s': State, w: nat)
    requires CountInv(s) && CountedMove(s, s', w)
    ensures CountInv(s')
  {
    CountUpdate(s.workers, w, s'.workers[w], IsPauseParked);
    CountUpdate(s.workers, w, s'.workers[w], IsDrainParked);
  }

  lemma CountKept(strict: bool, s: State, a: Action)
    requires CountInv(s) && Enabled(strict, s, a)
    ensures CountInv(Apply(strict, s, a))
  {
    if WorkerStep(a) {
      WorkerStepCounts(strict, s, a);
      MoveKeepsCounts(s, Apply(strict, s, a), a.w);
    } else {
      ControllerStepCounts(strict, s, a);
    }
  }

  /** A controller's step at most wakes the workers, and leaves the counters alone. */
  lemma ControllerStepWakes(strict: bool, s: State, a: Action)
    requires !WorkerStep(a) && Enabled(strict, s, a)
    ensures var s' := Apply(strict, s, a);
            && (s'.workers == s.workers || s'.workers == WakeWorkers(s.workers))
            && s'.numPaused == s.numPaused && s'.numDrained == s.numDrained && |s'.shards| == |s.shards|
  {
  }

  lemma WakingKeepsCounts(ws: seq<WorkerPc>)
    ensures Count(WakeWorkers(ws), IsPauseParked) == Count(ws, IsPauseParked)
    ensures Count(WakeWorkers(ws), IsDrainParked) == Count(ws, IsDrainParked)
  {
    CountSame(ws, WakeWorkers(ws), IsPauseParked);
    CountSame(ws, WakeWorkers(ws), IsDrainParked);
  }

  lemma ControllerStepCounts(strict: bool, s: State, a: Action)
    requires CountInv(s) && !WorkerStep(a) && Enabled(strict, s, a)
    ensures CountInv(Apply(strict, s, a))
  {
    ControllerStepWakes(strict, s, a);
    WakingKeepsCounts(s.workers);
  }

  lemma WorkerStepPause(s: State, a: Action)
    requires PauseInv(s) && WorkerStep(a) && Enabled(true, s, a)
    ensures PauseInv(Apply(true, s, a))
  {
  }

  lemma ControllerStepPause(s: State, a: Action)
    requires PauseInv(s) && !WorkerStep(a) && Enabled(true, s, a)
    requires s.numPaused == |s.workers| ==> forall w | 0 <= w < |s.workers| :: IsPauseParked(s.workers[w])
    ensures PauseInv(Apply(true, s, a))
  {
  }

  lemma PauseKept(s: State, a: Action)
    requires CountInv(s) && PauseInv(s) && Enabled(true, s, a)
    ensures PauseInv(Apply(true, s, a))
  {
    CountFull(s.workers, IsPauseParked);
    if WorkerStep(a) {
      WorkerStepPause(s, a);
    } else {
      ControllerStepPause(s, a);
    }
  }

  /** A counter that grows wakes the controllers; one that shrinks cannot become full. */
  lemma MoveKeepsControllersSleep(s: State, s': State, w: nat)
    requires CountInv(s) && ControllersSleep(s) && CountedMove(s, s', w)
    ensures ControllersSleep(s')
  {
    CountFull(s.workers, IsPauseParked);
    CountFull(s.workers, IsDrainParked);
  }

  lemma WorkerStepSleeps(strict: bool, s: State, a: Action)
    requires WorkersSleep(s) && WorkerStep(a) && Enabled(strict, s, a)
    ensures WorkersSleep(Apply(strict, s, a))
  {
  }

  lemma ControllerStepSleeps(strict: bool, s: State, a: Action)
    requires WorkersSleep(s) && !WorkerStep(a) && Enabled(strict, s, a)
    ensures WorkersSleep(Apply(strict, s, a))
  {
  }

  lemma WorkersSleepKept(strict: bool, s: State, a: Action)
    requires WorkersSleep(s) && Enabled(strict, s, a)
    ensures WorkersSleep(Apply(strict, s, a))
  {
    if WorkerStep(a) {
      WorkerStepSleeps(strict, s, a);
    } else {
      ControllerStepSleeps(strict, s, a);
    }
  }

  lemma ControllersSleepKept(strict: bool, s: State, a: Action)
    requires CountInv(s) && ControllersSleep(s) && Enabled(strict, s, a)
    ensures ControllersSleep(Apply(strict, s, a))
  {
    if WorkerStep(a) {
      WorkerStepCounts(strict, s, a);
      MoveKeepsControllersSleep(s, Apply(strict, s, a), a.w);
    }
  }

  lemma MoveKeepsDrain(s: State, s': State, w: nat)
    requires DrainInv(s) && DrainingMove(s, s', w)
    ensures DrainInv(s')
  {
    CountUpdate(s.workers, w, s'.workers[w], StaleIn(s.epoch));
    forall v | 0 <= v < |s'.workers| && s'.workers[v].DrainParked?
      ensures s'.workers[v].epoch <= s'.epoch && (v !in s'.touched ==> s'.shards[v] == 0)
    {
      if v != w {
        assert s'.workers[v] == s.workers[v];
      }
    }
  }

  lemma CallDrainKeepsDrain(strict: bool, s: State)
    requires CountInv(s) && DrainInv(s) && Enabled(strict, s, CallDrain)
    ensures DrainInv(Apply(strict, s, CallDrain))
  {
    CountAlike(s.workers, IsDrainParked, StaleIn(s.epoch + 1));
  }

  lemma DrainKept(strict: bool, s: State, a: Action)
    requires CountInv(s) && DrainInv(s) && Enabled(strict, s, a)
    ensures DrainInv(Apply(strict, s, a))
  {
    if WorkerStep(a) {
      WorkerStepDrains(strict, s, a);
      MoveKeepsDrain(s, Apply(strict, s, a), a.w);
    } else if a.CallDrain? {
      CallDrainKeepsDrain(strict, s);
    } else if a.Unpause? {
      CountSame(s.workers, WakeWorkers(s.workers), StaleIn(s.epoch));
    }
  }
}
