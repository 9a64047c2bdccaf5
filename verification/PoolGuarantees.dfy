/**
 What the thread pool promises, for every state of every run.
 */
module PoolGuarantees {
  import opened Counting
  import opened PoolWork
  import opened WorkerPool
  import opened PoolOrder
  import opened PoolSteps

  // ---------- wake-ups ----------

  /** No stranded work, on the strength of one notify_one per item alone: up to any point of a run,
      work that could be done never finds all workers asleep un-notified, if and only if no queue with
      items was registered (again) while all workers slept. */
  lemma NoStrandedWork(states: seq<State>, actions: seq<Action>, n: nat)
    requires IsRun(states, actions) && n < |states|
    ensures (forall i | 0 <= i <= n :: NotStranded(states[i])) <==>
              forall j | 0 <= j < n :: !StrandsWork(states[j], actions[j])
  {
    var ok := seq(|states|, i requires 0 <= i < |states| => NotStranded(states[i]));
    var bad := seq(|actions|,
      i requires 0 <= i < |actions| && |states| == |actions| + 1 => StrandsWork(states[i], actions[i]));
    forall i | 0 <= i < |bad| && ok[i] ensures ok[i + 1] <==> !bad[i] {
      StrandingStep(states, actions, i);
    }
    HoldsUpTo(ok, bad, n);
    assert forall i | 0 <= i < |states| :: ok[i] <==> NotStranded(states[i]);
    assert forall j | 0 <= j < |actions| :: bad[j] <==> StrandsWork(states[j], actions[j]);
  }

  lemma StrandingStep(states: seq<State>, actions: seq<Action>, i: nat)
    requires IsRun(states, actions) && i < |actions| && NotStranded(states[i])
    ensures NotStranded(states[i + 1]) <==> !StrandsWork(states[i], actions[i])
  {
    RunKeepsInv(states, actions, i);
    NotStrandedKept(states[i], actions[i]);
  }

  /** In such a run, a non-empty registered queue of a started pool that is neither stopping nor paused
      means that some worker is up. */
  lemma WorkFindsAWorker(states: seq<State>, actions: seq<Action>, n: nat, q: QueueId)
    requires IsRun(states, actions) && n < |states| && forall j | 0 <= j < n :: !StrandsWork(states[j], actions[j])
    requires !states[n].stopping && states[n].pause == 0 && states[n].work.workers != []
    requires q in states[n].workQueues && ItemsOf(states[n].work.queues, q) != []
    ensures exists w :: 0 <= w < |states[n].work.workers|
                        && !states[n].work.workers[w].Asleep? && !states[n].work.workers[w].Exited?
  {
    NoStrandedWork(states, actions, n);
    RunKeepsInv(states, actions, n);
    assert NotStranded(states[n]);
  }

  /** Up to any point of a run, every pauser that sleeps un-notified waits for work in flight, if and
      only if the last worker in flight never finished while `_pause` and `_draining` were zero and a
      pauser slept. */
  lemma PausersAreWoken(states: seq<State>, actions: seq<Action>, n: nat)
    requires IsRun(states, actions) && n < |states|
    ensures (forall i | 0 <= i <= n :: PausersSound(states[i])) <==>
              forall j | 0 <= j < n :: !StrandsPauser(states[j], actions[j])
  {
    var ok := seq(|states|, i requires 0 <= i < |states| => PausersSound(states[i]));
    var bad := seq(|actions|,
      i requires 0 <= i < |actions| && |states| == |actions| + 1 => StrandsPauser(states[i], actions[i]));
    forall i | 0 <= i < |bad| && ok[i] ensures ok[i + 1] <==> !bad[i] {
      PausersStep(states, actions, i);
    }
    HoldsUpTo(ok, bad, n);
    assert forall i | 0 <= i < |states| :: ok[i] <==> PausersSound(states[i]);
    assert forall j | 0 <= j < |actions| :: bad[j] <==> StrandsPauser(states[j], actions[j]);
  }

  lemma PausersStep(states: seq<State>, actions: seq<Action>, i: nat)
    requires IsRun(states, actions) && i < |actions| && PausersSound(states[i])
    ensures PausersSound(states[i + 1]) <==> !StrandsPauser(states[i], actions[i])
  {
    RunKeepsInv(states, actions, i);
    PausersKept(states[i], actions[i]);
  }

  /** In every run whatsoever, a sleeping pauser whose unpause() has not run waits for work that is
      really in flight. */
  lemma PausersInForceAreWoken(states: seq<State>, actions: seq<Action>, i: nat, c: nat)
    requires IsRun(states, actions) && i < |states|
    requires c < |states[i].clients| && states[i].clients[c] == PauseAsleep(true)
    ensures states[i].work.processing > 0
    ensures exists w :: 0 <= w < |states[i].work.workers| && InFlight(states[i].work.workers[w])
  {
    RunKeepsInv(states, actions, i);
    CountPositive(states[i].work.workers, InFlight);
  }

  /** The step is not an unpause() that runs before its pause() has returned. */
  ghost predicate Orderly(s: State, a: Action) {
    a.Unpause? ==> a.c < |s.clients| && s.clients[a.c].Paused?
  }

  /** Every pause() that still waits is in force. */
  ghost predicate WaitersInForce(s: State) {
    forall c | 0 <= c < |s.clients| && (s.clients[c].PauseAsleep? || s.clients[c].PauseAwake?) :: s.clients[c].inForce
  }

  lemma OrderlyStep(s: State, a: Action)
    requires WaitersInForce(s) && Enabled(s, a) && Orderly(s, a)
    ensures WaitersInForce(Apply(s, a))
  {
  }

  /** If every unpause() waits for its pause() to return, no pauser is ever left behind. */
  lemma {:induction false} OrderlyPausersAreWoken(states: seq<State>, actions: seq<Action>, n: nat)
    requires IsRun(states, actions) && n < |states| && forall j | 0 <= j < n :: Orderly(states[j], actions[j])
    ensures WaitersInForce(states[n]) && PausersSound(states[n])
  {
    RunKeepsInv(states, actions, n);
    if n > 0 {
      OrderlyPausersAreWoken(states, actions, n - 1);
      OrderlyStep(states[n - 1], actions[n - 1]);
    }
    assert forall c | 0 <= c < |states[n].clients| && states[n].clients[c].PauseAsleep? ::
        states[n].clients[c] == PauseAsleep(true);
  }

  /** Up to any point of a run, every drainer that sleeps un-notified waits for work in flight or for a
      non-empty queue, if and only if no stop cleared a queue on which a drainer slept. */
  lemma DrainersAreWoken(states: seq<State>, actions: seq<Action>, n: nat)
    requires IsRun(states, actions) && n < |states|
    ensures (forall i | 0 <= i <= n :: DrainersSound(states[i])) <==>
              forall j | 0 <= j < n :: !StrandsDrainer(states[j], actions[j])
  {
    var ok := seq(|states|, i requires 0 <= i < |states| => DrainersSound(states[i]));
    var bad := seq(|actions|,
      i requires 0 <= i < |actions| && |states| == |actions| + 1 => StrandsDrainer(states[i], actions[i]));
    forall i | 0 <= i < |bad| && ok[i] ensures ok[i + 1] <==> !bad[i] {
      DrainersStep(states, actions, i);
    }
    HoldsUpTo(ok, bad, n);
    assert forall i | 0 <= i < |states| :: ok[i] <==> DrainersSound(states[i]);
    assert forall j | 0 <= j < |actions| :: bad[j] <==> StrandsDrainer(states[j], actions[j]);
  }

  lemma DrainersStep(states: seq<State>, actions: seq<Action>, i: nat)
    requires IsRun(states, actions) && i < |actions| && DrainersSound(states[i])
    ensures DrainersSound(states[i + 1]) <==> !StrandsDrainer(states[i], actions[i])
  {
    RunKeepsInv(states, actions, i);
    DrainersKept(states[i], actions[i]);
  }

  // ---------- pause ----------

  /** Nested pauses: while some pause() has returned and its unpause() has not run, nothing is in
      flight and the next step, whatever it is, takes no item out of a queue. */
  lemma PauseExcludesWork(states: seq<State>, actions: seq<Action>, i: nat, c: nat)
    requires IsRun(states, actions) && i < |actions|
    requires c < |states[i].clients| && states[i].clients[c].Paused?
    ensures states[i].work.processing == 0 && NothingInFlight(states[i]) && NothingInFlight(states[i + 1])
  {
    var s := states[i];
    RunKeepsInv(states, actions, i);
    RunKeepsInv(states, actions, i + 1);
    CountPositive(s.clients, Pausing);
    assert Pausing(s.clients[c]);
    CountPositive(s.work.workers, InFlight);
    CountPositive(states[i + 1].work.workers, InFlight);
    PausedStaysIdle(s, actions[i]);
  }

  lemma PausedStaysIdle(s: State, a: Action)
    requires FlightInv(s.work) && s.pause != 0 && s.work.processing == 0 && Enabled(s, a)
    ensures Apply(s, a).work.processing == 0
  {
    match a
    case Start => AddWorkersQueues(s.work, Missing(s));
    case FinishItem(w) => FinishingMeansBusy(s, w);
    case _ =>
  }

  lemma FinishingMeansBusy(s: State, w: nat)
    requires FlightInv(s.work) && CanFinish(s.work, w)
    ensures s.work.processing > 0
  {
    assert InFlight(s.work.workers[w]);
    CountPositive(s.work.workers, InFlight);
  }

  // ---------- the end of pause() and drain() ----------

  /** When a pause() or a drain() of everything stops waiting, no worker is in flight and every item ever
      dequeued, from whatever queue, has been finished. */
  lemma CallEndMeansIdle(states: seq<State>, actions: seq<Action>, i: nat, c: nat, q: QueueId)
    requires IsRun(states, actions) && i < |actions| && CallEnds(states[i], actions[i], c)
    ensures states[i + 1].work == states[i].work && states[i].work.processing == 0 && NothingInFlight(states[i])
    ensures q in states[i].work.queues ==>
              var u := states[i].work.queues[q];
              u.toProcess == [] && u.toFinish == [] && multiset(u.past.dequeued) == multiset(u.past.finished)
  {
    RunKeepsInv(states, actions, i);
    CallEndsIdle(states[i], actions[i], c);
    CountPositive(states[i].work.workers, InFlight);
    if q in states[i].work.queues {
      IdleMeansFinished(states[i].work, q);
    }
  }

  /** When a drain(q), called in step k, stops waiting in step i, every item ever submitted on q and not
      discarded by a stop has been processed and finished, with multiplicity. */
  lemma DrainMeansFinished(states: seq<State>, actions: seq<Action>, k: nat, i: nat, q: QueueId)
    requires IsRun(states, actions) && k <= i < |actions| && q in states[i].work.queues
    requires actions[k] == CallDrain(Only(q)) && CallEnds(states[i], actions[i], |states[k].clients|)
    ensures states[i + 1].work == states[i].work && states[i].work.processing == 0
    ensures var u := states[i].work.queues[q];
            && u.items == [] && u.toProcess == [] && u.toFinish == []
            && multiset(Submitted(actions, q, i)) == multiset(u.past.finished) + u.past.discarded
  {
    assert WorkInv(states[i].work) by {
      RunKeepsInv(states, actions, i);
    }
    DrainEndsEmpty(states, actions, k, i, q);
    IdleMeansFinished(states[i].work, q);
    EnqueuedIsSubmitted(states, actions, i, q);
  }

  lemma DrainEndsEmpty(states: seq<State>, actions: seq<Action>, k: nat, i: nat, q: QueueId)
    requires IsRun(states, actions) && k <= i < |actions|
    requires actions[k] == CallDrain(Only(q)) && CallEnds(states[i], actions[i], |states[k].clients|)
    ensures states[i + 1].work == states[i].work && states[i].work.processing == 0
    ensures ItemsOf(states[i].work.queues, q) == []
  {
    if k < i {
      DrainOfCall(states, actions, k, i);
    }
    CallEndsIdle(states[i], actions[i], |states[k].clients|);
    assert Drains(states[i], actions[i], |states[k].clients|, q);
  }

  // ---------- hand-off ----------

  /** Conservation: in every state of every run, every item ever submitted is in exactly one place,
      counted with multiplicity. */
  lemma ItemsAreConserved(states: seq<State>, actions: seq<Action>, i: nat, q: QueueId)
    requires IsRun(states, actions) && i < |states| && q in states[i].work.queues
    ensures var k := states[i].work; var u := k.queues[q];
            multiset(Submitted(actions, q, i)) ==
                               multiset(u.items) + multiset(u.toProcess) + Gather(k.workers, RunningItem(q))
                               + multiset(u.toFinish) + multiset(u.past.finished) + u.past.discarded
  {
    RunKeepsInv(states, actions, i);
    Conservation(states[i].work, q);
    EnqueuedIsSubmitted(states, actions, i, q);
  }

  /** The hand-off of every queue in every state: `processing` counts the workers in flight, no
      ASSERT can fire, and items keep their order. */
  lemma HandOffIsSound(states: seq<State>, actions: seq<Action>, i: nat, q: QueueId, w: nat)
    requires IsRun(states, actions) && i < |states| && q in states[i].work.queues && w < |states[i].work.workers|
    ensures var k := states[i].work;
            && k.processing == Count(k.workers, InFlight)
            && (k.workers[w].Dequeued? ==> CanPop(k, w)) && (k.workers[w].Pushed? ==> CanFinish(k, w))
            && |k.queues[q].toProcess| == Count(k.workers, AtDequeued(q))
            && |k.queues[q].toFinish| == Count(k.workers, AtPushed(q))
            && k.queues[q].past.started <= k.queues[q].past.dequeued
            && k.queues[q].past.finished <= k.queues[q].past.completed
  {
    RunKeepsInv(states, actions, i);
    HandOffsNeverEmpty(states[i].work, w);
    HandOffOrder(states[i].work, q);
    assert QueueInv(states[i].work, q);
  }

  // ---------- stop ----------

  lemma StopStep(s: State, cleared: set<QueueId>, q: QueueId)
    requires WorkInv(s.work) && Enabled(s, StopEnd(cleared)) && q in s.work.queues
    ensures s.work.processing == 0
    ensures var u := s.work.queues[q];
            u.toProcess == [] && u.toFinish == [] && multiset(u.past.dequeued) == multiset(u.past.finished)
  {
    IdleWorkers(s.work);
    IdleMeansFinished(s.work, q);
  }

  /** When stop() has joined the workers and reaches its _clear loop, every item ever dequeued has
      been finished; a queue then keeps its items, or loses exactly those still waiting in it. */
  lemma StopLosesNothingInFlight(states: seq<State>, actions: seq<Action>, i: nat, q: QueueId)
    requires IsRun(states, actions) && i < |actions| && actions[i].StopEnd? && q in states[i].work.queues
    ensures states[i].work.processing == 0
    ensures var u := states[i].work.queues[q];
            u.toProcess == [] && u.toFinish == [] && multiset(u.past.dequeued) == multiset(u.past.finished)
    ensures !states[i + 1].stopping && states[i + 1].work.workers == [] && q in states[i + 1].work.queues
    ensures var u, v := states[i].work.queues[q], states[i + 1].work.queues[q];
            if q in states[i].workQueues && q in actions[i].cleared
            then v.items == [] && v.past.discarded == u.past.discarded + multiset(u.items)
                 && v.past.dequeued == u.past.dequeued
            else v == u
  {
    assert WorkInv(states[i].work) by {
      RunKeepsInv(states, actions, i);
    }
    StopStep(states[i], actions[i].cleared, q);
    StopEndsClean(states[i], actions[i].cleared);
  }

  // ---------- bounded bypass ----------

  /** The step takes an item out of the queue that the search found. */
  predicate IsServe(s: State, a: Action, s': State) {
    && a.Round? && a.offset < |s.workQueues| && CanTake(s.work, a.w, QueueAt(s, a.offset))
    && s'.work == Take(s.work, a.w, QueueAt(s, a.offset))
  }

  /** The number of items taken out of queues in steps a..b of a run. */
  function ServeCount(states: seq<State>, actions: seq<Action>, a: nat, b: nat): (n: nat)
    requires a <= b <= |actions| && |states| == |actions| + 1
  {
    if a == b then 0
    else ServeCount(states, actions, a, b - 1) + if IsServe(states[b - 1], actions[b - 1], states[b]) then 1 else 0
  }

  /** How many places a cursor at `c` is before position `j` in a ring of `n`. */
  function Distance(c: nat, j: nat, n: nat): (d: nat)
    requires j < n
    ensures d < n
  {
    if c % n <= j then j - c % n else j - c % n + n
  }

  function Ahead(s: State, j: nat): (d: nat)
    requires j < |s.workQueues|
  {
    Distance(s.cursor, j, |s.workQueues|)
  }

  /** The position in the list that a successful search serves. */
  function ServedAt(s: State, a: Action): (i: int) {
    if a.Round? && a.offset < |s.workQueues|
    then Wrap(s.cursor % |s.workQueues|, a.offset, |s.workQueues|) else -1
  }

  lemma CursorOnRing(c: nat, n: nat)
    requires 0 < n && c <= n
    ensures c % n == if c == n then 0 else c
  {
  }

  /** Moving past `k` places brings the cursor closer to whatever is further ahead. */
  lemma MovingPast(c: nat, k: nat, j: nat, n: nat)
    requires j < n && k < Distance(c, j, n)
    ensures Distance(Wrap(c % n, k, n) + 1, j, n) + k + 1 == Distance(c, j, n)
  {
    CursorOnRing(Wrap(c % n, k, n) + 1, n);
  }

  /** A search that serves another position stops before the waiting one. */
  lemma ServedBefore(s: State, k: nat, j: nat)
    requires FirstNonEmpty(s, k) && j < |s.workQueues| && ItemsOf(s.work.queues, s.workQueues[j]) != []
    requires Wrap(s.cursor % |s.workQueues|, k, |s.workQueues|) != j
    ensures k < Ahead(s, j)
  {
    assert Wrap(s.cursor % |s.workQueues|, Ahead(s, j), |s.workQueues|) == j;
    assert QueueAt(s, Ahead(s, j)) == s.workQueues[j];
  }

  /** A step that serves another position brings the cursor closer to a non-empty one; steps that
      serve nothing leave it where it is. */
  lemma StepTowards(s: State, a: Action, j: nat)
    requires Enabled(s, a) && j < |s.workQueues| && ItemsOf(s.work.queues, s.workQueues[j]) != []
    requires Apply(s, a).workQueues == s.workQueues
    requires IsServe(s, a, Apply(s, a)) ==> ServedAt(s, a) != j
    ensures Ahead(Apply(s, a), j) + (if IsServe(s, a, Apply(s, a)) then 1 else 0) <= Ahead(s, j)
  {
    assert s.workQueues[j] in s.workQueues;
    if a.Round? && WillServe(s) {
      if ServedAt(s, a) != j {
        ServedBefore(s, a.offset, j);
        MovingPast(s.cursor, a.offset, j, |s.workQueues|);
      }
    } else if a.Round? {
      assert Apply(s, a).work.processing == s.work.processing;
    }
  }

  /** Step i brings the cursor closer to position j if it serves a queue, and no further away else. */
  ghost predicate Closer(states: seq<State>, actions: seq<Action>, i: nat, j: nat) {
    && i < |actions| && |states| == |actions| + 1 && j < |states[i].workQueues| && j < |states[i + 1].workQueues|
    && Ahead(states[i + 1], j) + (if IsServe(states[i], actions[i], states[i + 1]) then 1 else 0) <= Ahead(states[i], j)
  }

  lemma CloserInRun(states: seq<State>, actions: seq<Action>, i: nat, j: nat)
    requires IsRun(states, actions) && i < |actions| && states[i + 1].workQueues == states[i].workQueues
    requires j < |states[i].workQueues| && ItemsOf(states[i].work.queues, states[i].workQueues[j]) != []
    requires IsServe(states[i], actions[i], states[i + 1]) ==> ServedAt(states[i], actions[i]) != j
    ensures Closer(states, actions, i, j)
  {
    StepTowards(states[i], actions[i], j);
  }

  lemma {:induction false} CloserAddsUp(states: seq<State>, actions: seq<Action>, a: nat, b: nat, j: nat)
    requires a <= b <= |actions| && |states| == |actions| + 1 && j < |states[a].workQueues|
    requires forall i | a <= i < b :: Closer(states, actions, i, j)
    ensures j < |states[b].workQueues|
    ensures ServeCount(states, actions, a, b) + Ahead(states[b], j) <= Ahead(states[a], j)
    decreases b
  {
    if a < b {
      CloserAddsUp(states, actions, a, b - 1, j);
      assert Closer(states, actions, b - 1, j);
    }
  }

  /** Between states a and b the list stays the same and the queue at position j stays non-empty. */
  ghost predicate StaysWaiting(states: seq<State>, a: nat, b: nat, j: nat) {
    && a <= b < |states| && j < |states[a].workQueues|
    && (forall i | a <= i <= b :: states[i].workQueues == states[a].workQueues)
    && (forall i | a <= i < b :: ItemsOf(states[i].work.queues, states[a].workQueues[j]) != [])
  }

  lemma ServesElsewhereAreFew(states: seq<State>, actions: seq<Action>, a: nat, b: nat, j: nat)
    requires IsRun(states, actions) && StaysWaiting(states, a, b, j)
    requires forall i | a <= i < b ::
               IsServe(states[i], actions[i], states[i + 1]) ==> ServedAt(states[i], actions[i]) != j
    ensures ServeCount(states, actions, a, b) + Ahead(states[b], j) <= Ahead(states[a], j)
  {
    forall i | a <= i < b ensures Closer(states, actions, i, j) {
      CloserInRun(states, actions, i, j);
    }
    CloserAddsUp(states, actions, a, b, j);
  }

  /** Bounded bypass: while the list of n queues stays the same, a queue that stays non-empty is
      served within n dequeues, whichever workers perform them. */
  lemma BoundedBypass(states: seq<State>, actions: seq<Action>, a: nat, b: nat, j: nat)
    requires IsRun(states, actions) && StaysWaiting(states, a, b, j)
    requires ServeCount(states, actions, a, b) >= |states[a].workQueues|
    ensures exists i :: a <= i < b
                        && IsServe(states[i], actions[i], states[i + 1]) && ServedAt(states[i], actions[i]) == j
  {
    if forall i | a <= i < b :: IsServe(states[i], actions[i], states[i + 1]) ==> ServedAt(states[i], actions[i]) != j {
      ServesElsewhereAreFew(states, actions, a, b, j);
    }
  }
}
