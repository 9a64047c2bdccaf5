/**
 What single calls and steps of the thread pool amount to, as their callers see it.
 */
module PoolSteps {
  import opened Counting
  import opened PoolWork
  import opened WorkerPool

  // ---------- registration and threads ----------

  /** The list `qs'` is `qs` without the first occurrence of `q`, and with everything else in place. */
  ghost predicate TakesOneOut(qs: seq<QueueId>, qs': seq<QueueId>, q: QueueId) {
    && multiset(qs') == multiset(qs) - multiset{q}
    && if q in qs then exists i :: 0 <= i < |qs| && IsFirst(qs, q, i) && qs' == qs[..i] + qs[i + 1..] else qs' == qs
  }

  /** Removing a queue takes out its first occurrence, and nothing else. */
  lemma RemoveTakesOne(s: State, q: QueueId)
    ensures var s' := Apply(s, RemoveQueue(q));
            TakesOneOut(s.workQueues, s'.workQueues, q) && s' == s.(workQueues := s'.workQueues)
  {
    WithoutCounts(s.workQueues, q);
    WithoutOne(s.workQueues, q);
  }

  ghost predicate IsFirst(qs: seq<QueueId>, q: QueueId, i: int)
    requires 0 <= i < |qs|
  {
    qs[i] == q && q !in qs[..i]
  }

  /** Erasing the first occurrence, at position `i` or nowhere. */
  lemma {:induction false} WithoutFirst(qs: seq<QueueId>, q: QueueId, i: nat)
    requires i <= |qs| && (forall j | 0 <= j < i :: qs[j] != q) && (i < |qs| ==> qs[i] == q)
    ensures Without(qs, q) == if i < |qs| then qs[..i] + qs[i + 1..] else qs
    decreases i
  {
    if i > 0 {
      var rest := qs[1..];
      WithoutFirst(rest, q, i - 1);
      assert Without(qs, q) == [qs[0]] + Without(rest, q);
      if i < |qs| {
        assert [qs[0]] + rest[..i - 1] == qs[..i] && rest[i..] == qs[i + 1..];
      }
    }
  }

  lemma {:induction false} FirstIndex(qs: seq<QueueId>, q: QueueId) returns (i: nat)
    ensures i <= |qs| && (forall j | 0 <= j < i :: qs[j] != q) && (i < |qs| ==> qs[i] == q)
  {
    if qs == [] || qs[0] == q {
      i := 0;
    } else {
      var k := FirstIndex(qs[1..], q);
      i := k + 1;
      assert forall j | 0 < j < i :: qs[j] == qs[1..][j - 1];
    }
  }

  lemma {:induction false} WithoutCounts(qs: seq<QueueId>, q: QueueId)
    ensures multiset(Without(qs, q)) == multiset(qs) - multiset{q}
  {
    if qs != [] {
      var first, rest := qs[0], qs[1..];
      assert qs == [first] + rest;
      assert multiset(qs) == multiset{first} + multiset(rest);
      if first != q {
        WithoutCounts(rest, q);
        assert multiset([first] + Without(rest, q)) == multiset{first} + multiset(Without(rest, q));
      }
    }
  }

  lemma WithoutOne(qs: seq<QueueId>, q: QueueId)
    ensures if q in qs then exists i :: 0 <= i < |qs| && IsFirst(qs, q, i) && Without(qs, q) == qs[..i] + qs[i + 1..]
            else Without(qs, q) == qs
  {
    var i := FirstIndex(qs, q);
    WithoutFirst(qs, q, i);
    if i < |qs| {
      assert IsFirst(qs, q, i);
    }
  }

  /** Starting leaves the workers that exist alone and brings their number up to what was asked for. */
  lemma StartFillsUp(s: State)
    requires Enabled(s, Start)
    ensures var ws, ws' := s.work.workers, Apply(s, Start).work.workers;
            && |ws'| == (if |ws| < s.numThreads then s.numThreads else |ws|)
            && ws <= ws' && forall w | |ws| <= w < |ws'| :: ws'[w] == Ready
  {
    AddWorkersQueues(s.work, Missing(s));
  }

  // ---------- workers ----------

  /** Submitting wakes exactly one sleeping worker, if there is one. */
  lemma SubmitWakesOne(s: State, a: Action)
    requires a.Submit? && Enabled(s, a)
    ensures var before, after := Count(s.work.workers, IsAsleep), Count(Apply(s, a).work.workers, IsAsleep);
            after == if before > 0 then before - 1 else 0
  {
    if Count(s.work.workers, IsAsleep) > 0 {
      CountUpdate(s.work.workers, a.woken, Ready, IsAsleep);
    }
  }

  /** A pass of the worker loop ends the worker in a stop, hands it an item when there is one to be had,
      and otherwise sends it to sleep; nobody else moves. */
  lemma RoundDecides(s: State, w: nat, offset: nat)
    requires Registered(s) && Enabled(s, Round(w, offset))
    ensures var ws, ws' := s.work.workers, Apply(s, Round(w, offset)).work.workers;
            && |ws'| == |ws| && (forall v | 0 <= v < |ws| && v != w :: ws'[v] == ws[v])
            && (ws'[w].Exited? <==> s.stopping)
            && (ws'[w].Dequeued? <==>
                  !s.stopping && s.pause == 0 && exists q :: q in s.workQueues && ItemsOf(s.work.queues, q) != [])
            && (ws'[w].Exited? || ws'[w].Dequeued? || ws'[w].Asleep?)
            && (ws'[w].Dequeued? ==> ws'[w].q in s.workQueues && ItemsOf(s.work.queues, ws'[w].q) != [])
  {
    if WillServe(s) {
      ServedCanBeTaken(s, w, offset);
    }
  }

  /** A pass that finds nothing leaves the place where the next search begins. */
  lemma MissKeepsPlace(s: State, w: nat, offset: nat)
    requires Enabled(s, Round(w, offset)) && s.workQueues != []
    requires !Apply(s, Round(w, offset)).work.workers[w].Dequeued?
    ensures Apply(s, Round(w, offset)).cursor % |s.workQueues| == s.cursor % |s.workQueues|
  {
  }

  /** A pass that finds something makes the next search begin right after the queue served. */
  lemma ServeMovesOn(s: State, w: nat, offset: nat)
    requires Registered(s) && Enabled(s, Round(w, offset))
    requires Apply(s, Round(w, offset)).work.workers[w].Dequeued?
    ensures var s' := Apply(s, Round(w, offset));
            0 < s'.cursor <= |s.workQueues| && s.workQueues[s'.cursor - 1] == s'.work.workers[w].q
  {
    if WillServe(s) {
      ServedCanBeTaken(s, w, offset);
    }
  }

  // ---------- pause and drain ----------

  /** Call `c` was waiting, or is made in this step, and is waiting no longer. */
  ghost predicate CallEnds(s: State, a: Action, c: nat) {
    var s' := if Enabled(s, a) then Apply(s, a) else s;
    && c < |s'.clients| && (s'.clients[c].Paused? || s'.clients[c].Done?)
    && if c < |s.clients| then Waiting(s.clients[c]) else a.CallPause? || a.CallDrain?
  }

  predicate Waiting(pc: ClientPc) {
    pc.PauseAsleep? || pc.PauseAwake? || pc.DrainAsleep? || pc.DrainAwake?
  }

  /** What the call waits for, besides idle workers. */
  ghost predicate Drains(s: State, a: Action, c: nat, q: QueueId) {
    if c < |s.clients| then Draining(s.clients[c]) && s.clients[c].target == Only(q) else a == CallDrain(Only(q))
  }

  /** A drain() in any of its phases, with the target it was called with. */
  predicate IsDrain(pc: ClientPc, target: Target) {
    pc.Done? || (Draining(pc) && pc.target == target)
  }

  /** A call of drain() keeps its target until it is over, whatever happens. */
  lemma DrainStaysItself(s: State, a: Action, c: nat, target: Target)
    requires Enabled(s, a) && c < |s.clients| && IsDrain(s.clients[c], target)
    ensures c < |Apply(s, a).clients| && IsDrain(Apply(s, a).clients[c], target)
  {
  }

  lemma {:induction false} DrainOfCall(states: seq<State>, actions: seq<Action>, k: nat, n: nat)
    requires IsRun(states, actions) && k < n < |states| && actions[k].CallDrain?
    ensures |states[k].clients| < |states[n].clients|
    ensures IsDrain(states[n].clients[|states[k].clients|], actions[k].target)
    decreases n
  {
    if n > k + 1 {
      DrainOfCall(states, actions, k, n - 1);
      DrainStaysItself(states[n - 1], actions[n - 1], |states[k].clients|, actions[k].target);
    }
  }

  /** A pause() or drain() call ends only in a step that finds nothing in flight and, for drain(q), the
      queue empty; the step changes no queue and no worker. */
  lemma CallEndsIdle(s: State, a: Action, c: nat)
    requires Enabled(s, a) && CallEnds(s, a, c)
    ensures s.work.processing == 0 && Apply(s, a).work == s.work
    ensures forall q | Drains(s, a, c, q) :: ItemsOf(s.work.queues, q) == []
  {
  }

  /** And it does end in such a step, when it is made or after it was woken. */
  lemma IdleEndsCall(s: State, a: Action)
    requires Enabled(s, a) && (a.CallPause? || a.CallDrain? || a.Recheck?) && s.work.processing == 0
    requires var c := if a.Recheck? then a.c else |s.clients|;
             forall q | Drains(s, a, c, q) :: ItemsOf(s.work.queues, q) == []
    ensures CallEnds(s, a, if a.Recheck? then a.c else |s.clients|)
  {
    var c := if a.Recheck? then a.c else |s.clients|;
    if a.Recheck? && s.clients[c].DrainAwake? && s.clients[c].target.Only? {
      assert Drains(s, a, c, s.clients[c].target.q);
    }
    if a.CallDrain? && a.target.Only? {
      assert Drains(s, a, c, a.target.q);
    }
  }

  // ---------- stop ----------

  /** Once the workers have been joined, the pool is as before its first start, except that the queues
      keep their items or lose them all: it can be started again. */
  lemma StopEndsClean(s: State, cleared: set<QueueId>)
    requires Enabled(s, StopEnd(cleared))
    ensures var s' := Apply(s, StopEnd(cleared));
            && !s'.stopping && s'.work.workers == [] && Enabled(s', Start)
            && s'.pause == s.pause && s'.draining == s.draining && s'.clients == s.clients
            && s'.workQueues == s.workQueues && s'.work.queues.Keys == s.work.queues.Keys
            && forall q | q in s.work.queues ::
                 var u, v := s.work.queues[q], s'.work.queues[q];
                 if q in s.workQueues && q in cleared
                 then v.items == [] && v.past.discarded == u.past.discarded + multiset(u.items)
                      && v.past.dequeued == u.past.dequeued && v.past.enqueued == u.past.enqueued
                 else v == u
  {
  }

  /** From the beginning of a stop every pass of a worker ends it. */
  lemma StopEndsWorkers(s: State, w: nat, offset: nat)
    requires Enabled(s, StopBegin) && Enabled(Apply(s, StopBegin), Round(w, offset))
    ensures Apply(Apply(s, StopBegin), Round(w, offset)).work.workers[w].Exited?
  {
  }
}
