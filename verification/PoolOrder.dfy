/**
 Which items are in a queue, and in what order, read off the calls that were made: first in, first
 out, unless an item was put at the front.
 */
module PoolOrder {
  import opened PoolWork
  import opened WorkerPool

  /** The items handed to queue() and queue_front() of `q` in the first n steps, oldest first. */
  function Submitted(actions: seq<Action>, q: QueueId, n: nat): (items: seq<Item>)
    requires n <= |actions|
  {
    if n == 0 then [] else Submitted(actions, q, n - 1) + SubmittedBy(actions[n - 1], q)
  }

  function SubmittedBy(a: Action, q: QueueId): (items: seq<Item>) {
    if a.Submit? && a.q == q then [a.x] else []
  }

  predicate PutsInFront(a: Action, q: QueueId) {
    a.Submit? && a.q == q && a.front
  }

  /** The end of a stop discards what waits in the queue. */
  predicate Discards(s: State, a: Action, q: QueueId) {
    a.StopEnd? && q in s.workQueues && q in a.cleared
  }

  /** The step takes an item out of the queue. */
  ghost predicate Serves(s: State, a: Action, q: QueueId) {
    a.Round? && WillServe(s) && a.offset < |s.workQueues| && QueueAt(s, a.offset) == q
  }

  // ---------- every item enqueued was submitted, and the other way round ----------

  function EnqueuedOn(queues: map<QueueId, Queue>, q: QueueId): (items: multiset<Item>) {
    if q in queues then queues[q].past.enqueued else multiset{}
  }

  /** The items that left the queue and those that wait in it, in order. */
  function Passed(queues: map<QueueId, Queue>, q: QueueId): (items: seq<Item>) {
    if q in queues then queues[q].past.dequeued + queues[q].items else []
  }

  /** Steps inside the hand-off move no item into or out of the user queue. */
  lemma HandOffLeavesQueue(s: State, a: Action, q: QueueId)
    requires a.BeginProcess? || a.EndProcess? || a.FinishItem?
    requires Enabled(s, a)
    ensures var s' := Apply(s, a);
            && EnqueuedOn(s'.work.queues, q) == EnqueuedOn(s.work.queues, q)
            && Passed(s'.work.queues, q) == Passed(s.work.queues, q)
            && ItemsOf(s'.work.queues, q) == ItemsOf(s.work.queues, q)
  {
  }

  /** A dequeue moves the first item from one part of the sequence to the other. */
  lemma RoundPasses(s: State, w: nat, offset: nat, q: QueueId)
    requires Registered(s) && Enabled(s, Round(w, offset))
    ensures var s' := Apply(s, Round(w, offset));
            && EnqueuedOn(s'.work.queues, q) == EnqueuedOn(s.work.queues, q)
            && Passed(s'.work.queues, q) == Passed(s.work.queues, q)
            && (!Serves(s, Round(w, offset), q) ==> ItemsOf(s'.work.queues, q) == ItemsOf(s.work.queues, q))
  {
    if WillServe(s) {
      ServedCanBeTaken(s, w, offset);
    }
  }

  lemma SubmitPassesHere(queue: Queue, x: Item, front: bool)
    ensures var r := Enqueued(queue, x, front);
            && r.past.enqueued == queue.past.enqueued + multiset{x} && r.past.dequeued == queue.past.dequeued
            && r.items == if front then [x] + queue.items else queue.items + [x]
    ensures !front ==> var r := Enqueued(queue, x, front);
                       r.past.dequeued + r.items == queue.past.dequeued + queue.items + [x]
  {
  }

  lemma SubmitPasses(s: State, a: Action, q: QueueId)
    requires a.Submit? && Enabled(s, a)
    ensures var s' := Apply(s, a);
            && EnqueuedOn(s'.work.queues, q) == EnqueuedOn(s.work.queues, q) + multiset(SubmittedBy(a, q))
            && (!PutsInFront(a, q) ==> Passed(s'.work.queues, q) == Passed(s.work.queues, q) + SubmittedBy(a, q))
            && ItemsOf(s'.work.queues, q) ==
               if PutsInFront(a, q) then [a.x] + ItemsOf(s.work.queues, q)
               else ItemsOf(s.work.queues, q) + SubmittedBy(a, q)
  {
    var s' := Apply(s, a);
    assert s'.work.queues == s.work.queues[a.q := Enqueued(s.work.queues[a.q], a.x, a.front)];
    if a.q == q {
      SubmitPassesHere(s.work.queues[q], a.x, a.front);
    } else {
      assert SubmittedBy(a, q) == [];
    }
  }

  /** Of the other steps, only the end of a stop touches the queue. */
  lemma OtherStepPasses(s: State, a: Action, q: QueueId)
    requires !a.BeginProcess? && !a.EndProcess? && !a.FinishItem? && !a.Round? && !a.Submit? && Enabled(s, a)
    ensures var s' := Apply(s, a);
            && EnqueuedOn(s'.work.queues, q) == EnqueuedOn(s.work.queues, q)
            && (!Discards(s, a, q) ==> Passed(s'.work.queues, q) == Passed(s.work.queues, q))
            && (!Discards(s, a, q) ==> ItemsOf(s'.work.queues, q) == ItemsOf(s.work.queues, q))
  {
    if a.Start? {
      AddWorkersQueues(s.work, Missing(s));
    }
  }

  lemma StepPasses(s: State, a: Action, q: QueueId)
    requires Registered(s) && Enabled(s, a)
    ensures EnqueuedOn(Apply(s, a).work.queues, q) == EnqueuedOn(s.work.queues, q) + multiset(SubmittedBy(a, q))
    ensures !PutsInFront(a, q) && !Discards(s, a, q) ==>
              Passed(Apply(s, a).work.queues, q) == Passed(s.work.queues, q) + SubmittedBy(a, q)
    ensures !Discards(s, a, q) && !Serves(s, a, q) ==>
              ItemsOf(Apply(s, a).work.queues, q) ==
              if PutsInFront(a, q) then [a.x] + ItemsOf(s.work.queues, q)
              else ItemsOf(s.work.queues, q) + SubmittedBy(a, q)
  {
    match a
    case BeginProcess(w) => HandOffLeavesQueue(s, a, q);
    case EndProcess(w) => HandOffLeavesQueue(s, a, q);
    case FinishItem(w) => HandOffLeavesQueue(s, a, q);
    case Round(w, offset) => RoundPasses(s, w, offset, q);
    case Submit(_, _, _, _) => SubmitPasses(s, a, q);
    case _ => OtherStepPasses(s, a, q);
  }

  /** In every state of every run, what counts as enqueued on a queue is what its callers submitted. */
  lemma {:induction false} EnqueuedIsSubmitted(states: seq<State>, actions: seq<Action>, n: nat, q: QueueId)
    requires IsRun(states, actions) && n < |states|
    ensures EnqueuedOn(states[n].work.queues, q) == multiset(Submitted(actions, q, n))
  {
    if n > 0 {
      EnqueuedIsSubmitted(states, actions, n - 1, q);
      EnqueuedInRun(states, actions, n - 1, q);
      var before, last := Submitted(actions, q, n - 1), SubmittedBy(actions[n - 1], q);
      assert multiset(before + last) == multiset(before) + multiset(last);
    }
  }

  lemma EnqueuedInRun(states: seq<State>, actions: seq<Action>, i: nat, q: QueueId)
    requires IsRun(states, actions) && i < |actions|
    ensures EnqueuedOn(states[i + 1].work.queues, q) ==
            EnqueuedOn(states[i].work.queues, q) + multiset(SubmittedBy(actions[i], q))
  {
    PassesInRun(states, actions, i, q);
  }

  lemma RegisteredInRun(states: seq<State>, actions: seq<Action>, i: nat)
    requires IsRun(states, actions) && i < |states|
    ensures Registered(states[i])
  {
    RunKeepsInv(states, actions, i);
  }

  lemma PassesInRun(states: seq<State>, actions: seq<Action>, i: nat, q: QueueId)
    requires IsRun(states, actions) && i < |actions|
    ensures var queues, queues', a := states[i].work.queues, states[i + 1].work.queues, actions[i];
            && EnqueuedOn(queues', q) == EnqueuedOn(queues, q) + multiset(SubmittedBy(a, q))
            && (!PutsInFront(a, q) && !Discards(states[i], a, q) ==>
                  Passed(queues', q) == Passed(queues, q) + SubmittedBy(a, q))
            && (!Discards(states[i], a, q) && !Serves(states[i], a, q) ==>
                  ItemsOf(queues', q) == if PutsInFront(a, q) then [a.x] + ItemsOf(queues, q)
                                         else ItemsOf(queues, q) + SubmittedBy(a, q))
  {
    RegisteredInRun(states, actions, i);
    StepPasses(states[i], actions[i], q);
  }

  /** First in, first out: as long as nothing was put at the front or discarded, the items that left the
      queue followed by those that wait in it are the items submitted, in the order of the calls. */
  lemma {:induction false} FirstInFirstOut(states: seq<State>, actions: seq<Action>, n: nat, q: QueueId)
    requires IsRun(states, actions) && n < |states|
    requires forall j | 0 <= j < n :: !PutsInFront(actions[j], q) && !Discards(states[j], actions[j], q)
    ensures Passed(states[n].work.queues, q) == Submitted(actions, q, n)
  {
    if n > 0 {
      FirstInFirstOut(states, actions, n - 1, q);
      PassesInRun(states, actions, n - 1, q);
    }
  }

  // ---------- an item put at the front is the next one taken ----------

  ghost predicate AtFront(s: State, q: QueueId, x: Item) {
    ItemsOf(s.work.queues, q) != [] && ItemsOf(s.work.queues, q)[0] == x
  }

  ghost predicate LeavesFront(s: State, a: Action, q: QueueId) {
    !PutsInFront(a, q) && !Discards(s, a, q) && !Serves(s, a, q)
  }

  lemma {:induction false} StaysAtFront(states: seq<State>, actions: seq<Action>, i: nat, j: nat, q: QueueId)
    requires IsRun(states, actions) && i < j < |states| && PutsInFront(actions[i], q)
    requires forall k | i < k < j :: LeavesFront(states[k], actions[k], q)
    ensures AtFront(states[j], q, actions[i].x)
    decreases j
  {
    if j == i + 1 {
      PutAtFront(states, actions, i, q);
    } else {
      StaysAtFront(states, actions, i, j - 1, q);
      FrontIsLeft(states, actions, j - 1, q, actions[i].x);
    }
  }

  lemma PutAtFront(states: seq<State>, actions: seq<Action>, i: nat, q: QueueId)
    requires IsRun(states, actions) && i < |actions| && PutsInFront(actions[i], q)
    ensures AtFront(states[i + 1], q, actions[i].x)
  {
    PassesInRun(states, actions, i, q);
  }

  lemma FrontIsLeft(states: seq<State>, actions: seq<Action>, k: nat, q: QueueId, x: Item)
    requires IsRun(states, actions) && k < |actions| && AtFront(states[k], q, x)
    requires LeavesFront(states[k], actions[k], q)
    ensures AtFront(states[k + 1], q, x)
  {
    PassesInRun(states, actions, k, q);
  }

  /** The item dequeued by a step that serves `q` is the first one waiting. */
  lemma ServesFirst(s: State, a: Action, q: QueueId)
    requires Registered(s) && Enabled(s, a) && Serves(s, a, q)
    ensures q in s.work.queues && q in Apply(s, a).work.queues && s.work.queues[q].items != []
    ensures var u, v := s.work.queues[q], Apply(s, a).work.queues[q];
            v.past.dequeued == u.past.dequeued + [u.items[0]] && v.toProcess == u.toProcess + [u.items[0]]
  {
    ServedCanBeTaken(s, a.w, a.offset);
  }

  /** After queue_front(x), the next item dequeued from the queue is x, unless another one was put in
      front of it or a stop discarded it. */
  lemma FrontIsNext(states: seq<State>, actions: seq<Action>, i: nat, j: nat, q: QueueId)
    requires IsRun(states, actions) && i < j < |actions| && PutsInFront(actions[i], q)
    requires forall k | i < k < j :: LeavesFront(states[k], actions[k], q)
    requires Serves(states[j], actions[j], q)
    ensures q in states[j].work.queues && q in states[j + 1].work.queues
    ensures states[j + 1].work.queues[q].past.dequeued == states[j].work.queues[q].past.dequeued + [actions[i].x]
    ensures states[j + 1].work.queues[q].toProcess == states[j].work.queues[q].toProcess + [actions[i].x]
  {
    StaysAtFront(states, actions, i, j, q);
    RegisteredInRun(states, actions, j);
    ServesFirst(states[j], actions[j], q);
  }
}
