# BlueThread: verified models of lockdep, the thread pools and the debug mutex

BlueThread is a C++ multithreading library. Its documentation promises that lockdep detects
self-deadlock and circular deadlock; its thread pools promise `pause`, `drain` and `stop` with
obvious meanings that rest on counters, flags and condition variables. This project models that code
in Dafny and proves, for all inputs and all interleavings, what it keeps.

There are two kinds of files.

* **Objects.** `BitPacking`, `Lockdep`, `CheckedLocks`, `ThreadPool`, `ShardedThreadPool` and the last
  part of `MutexBookkeeping` are classes with the source's fields and loops. Every method is proved
  against a function of the old state.
* **Step relations.** `LockProtocol`, `WorkerPool` (over `PoolWork`), `ShardedPool` and
  `MutexBookkeeping` let any number of threads interleave. One step is one region that nothing can
  interrupt: a section under a lock, one unlocked load or store, one pthread call. A thread in an
  `Asleep` phase waits on a condition variable and has not been notified. A run is a sequence of
  states and actions from the initial state; the main results speak of every state of every run.

The two meet in the objects. A method of `CheckedLocks.CheckedLocks`, `ThreadPool.ThreadPool`,
`ShardedThreadPool.ShardedThreadPool` or `MutexBookkeeping.DebugMutex` *is* a step of its relation
(`View() == Apply(old(View()), …)`), or several steps of one thread in a row, and `Valid()` says that
some run leads to the state of the object. So what is proved of runs holds of any interleaving of the
methods, and the methods use it: their ASSERTs are proved and not assumed, and `pause` and `drain`
promise their barrier when they do not wait. `CheckedLocks` drives the byte tables of the detector
through the lock protocol, call by call.

| file | contents |
|---|---|
| `BitPacking.dfy` | the byte arrays: bitmap of free ids, order matrix |
| `LockOrder.dfy` | paths, reachability and cycles in a finite order |
| `Lockdep.dfy` | lockdep: registration, search, check, history |
| `LockProtocol.dfy`, `LockDiscipline.dfy` | threads and mutexes under lockdep; deadlock freedom and its limits |
| `CheckedLocks.dfy` | the detector executing the lock protocol |
| `MutexBookkeeping.dfy` | `locked_count` and `locked_by` under every interleaving |
| `Counting.dfy` | counting the elements of a sequence |
| `PoolWork.dfy`, `WorkerPool.dfy`, `ThreadPool.dfy` | the thread pool |
| `PoolSteps.dfy`, `PoolOrder.dfy`, `PoolGuarantees.dfy`, `PoolLimits.dfy` | what its calls and runs guarantee, and where wake-ups get lost |
| `ShardedPool.dfy`, `ShardedGuarantees.dfy`, `ShardedThreadPool.dfy` | the sharded pool |

## Main results

1. **Deadlock freedom.** No run that has not been aborted contains a non-empty set of threads each
   blocked on a mutex owned by a member of the set (`DeadlockFreedom`), if callers keep two promises: no
   `try_lock` succeeds on a name the thread already holds, and a condition wait gives up a lock to which
   a recorded edge leads from every other lock the thread owns (waiting with a sole lock is the special
   case). Both are needed, and not in one run only: from *every* reachable state, a `try_lock` that
   succeeds on a held name (`HeldNameCanDeadlock`, with a lock name to spare), and a wait with an owned
   lock from which not even a recorded path leads to the one given up (`UnorderedWaitCanDeadlock`), can
   be continued to an unreported circular wait. Between edge and path lies no guarantee: a path can be
   lost while the waiter sleeps (`PathIsNotEnough`).
2. **The check is exact.** `lockdep_will_lock` aborts if and only if the edges held → id would close
   a cycle, in whatever order the held map is walked, and otherwise adds exactly those edges. Its
   recursive search has no visited set: acyclicity, which the check maintains, is what makes the
   search terminate (`DoesFollow`). This and the bookkeeping of ids hold in every run, whether or not
   callers keep their promises (`RefusalIsExact`, `OnlyLiveIds`).
3. **History.** The matrix and the table of backtraces hold edge (a, b) if and only if some acquire of
   b went ahead with a held and neither id was freed since (`Detector.Valid`).
4. **Wake-ups of the pool**, with a single `notify_one` per item and no help from timeouts. Three steps
   of the code can lose a wake-up, and no others can: registering a queue that already has items while
   all workers sleep, a worker finishing the last item in flight when a sleeping `pause` has been undone
   by an early `unpause`, and a `stop` clearing a queue on which a `drain` sleeps. Each has a run that
   shows it (`PoolLimits`), and a run is free of stranded work, stranded pausers or stranded drainers if
   and only if it never takes the respective step (`NoStrandedWork`, `PausersAreWoken`,
   `DrainersAreWoken`).
5. **Conservation, first-in-first-out and hand-off order, drain, pause, stop and bounded bypass** of the
   pool, read off the calls that were made: every item submitted is in exactly one place, items leave a
   queue in the order of the `queue` calls, `queue_front` goes first, and a `drain` that has returned
   leaves nothing submitted unfinished.
6. **The sharded barriers.** When `pause` returns all workers are parked; they stay so until the next
   `unpause` exactly when no `unpause` has run since the latest call of `pause`. When `drain` returns,
   all workers are parked; each of them saw its shard empty during this drain exactly when it began with
   `num_drained == 0`. Runs that break each condition are given. A `pause` still asleep when an `unpause`
   has run does not return unless `pause` is called again (`UnpausedPauserHangs`).
7. **Mutex counters** agree with ownership although they are written in separate steps and
   `locked_by` is never cleared. With condition variables used with one mutex each, an ASSERT fires if
   and only if somebody notifies a condition variable that has been waited on while nobody has its mutex.

## Assumptions

* pthread mutexes and condition variables behave as POSIX.1 says; memory is sequentially consistent.
* A mutex is unlocked only by its owner and is not destroyed while it is owned or awaited.
* Every `unpause` of the pool belongs to an earlier `pause` call, which need not have returned;
  register/unregister calls are balanced; `abort` ends the run.
* In `LockProtocol` all mutexes have lockdep switched on; they are then registered when constructed.
* Only workers wait on the pool's `_cond`. One thread starts and stops the pool. A queue that the pool
  meets for the first time is empty; user queues are sequences, as in `qa/test_threadpool.cc:69-97`.
* The sharded pool has all its workers started and at most one `drain` at a time. Only `PauseBarrier`
  speaks of `strict` runs, in which no `unpause` runs while a `pause` waits.

## Modelling choices

* Lock names and work items are abstract types; a backtrace is a flag (present or not).
* A work queue is an entry of the pool's map. Its `past` field records what happened to it and takes
  no part in any decision.
* A worker's finish and its next pass under the lock are two steps, although the lock is kept
  between them: this only adds interleavings. Timed waits may end at any moment.
* `_clear` is the user's: `stop` is told which of the registered queues are really emptied.
* Shards are numbers of waiting items; `_process` removes any number of them.
* Where the code and its documentation differ the code is followed. The README's promise for lockdep
  has the two conditions of result 1. A queue position can exceed the list after a removal; the code
  copes by reducing the cursor first, and so does the model.

## Model

| member | source | states |
|---|---|---|
| BitPacking.SetBitExact | synchronization/utils.cc:226-226 | or-ing in 1 << j sets bit j of a byte and changes no other bit |
| BitPacking.ClearBitExact | synchronization/utils.cc:50-51 | and-ing with 255 - (1 << j) clears bit j and changes no other bit |
| BitPacking.MaskIsShift | synchronization/utils.cc:47-48 | the mask of bit j is one shifted left by j |
| BitPacking.SetBit | synchronization/utils.cc:226-226 | or-ing a byte with 1 << j sets bit j and changes no other bit |
| BitPacking.ClearBit | synchronization/utils.cc:301-301 | byte & (255 - (1 << j)) clears bit j and changes no other bit |
| BitPacking.TestBit | synchronization/utils.cc:57-57 | byte & (1 << j) is non-zero exactly when bit j is set |
| BitPacking.IdBitmap.constructor | synchronization/utils.cc:17-19 | the zeroed bitmap is the empty set of free ids |
| BitPacking.IdBitmap.Fill | synchronization/utils.cc:31-39 | after filling, every id below MAX_LOCKS is free |
| BitPacking.IdBitmap.Test | synchronization/utils.cc:46-47 | the byte test answers membership in the set of free ids |
| BitPacking.IdBitmap.Claim | synchronization/utils.cc:50-51 | removes exactly one id from the free set, for every index |
| BitPacking.IdBitmap.Release | synchronization/utils.cc:309-309 | adds exactly one id to the free set |
| BitPacking.IdBitmap.ClaimLeast | synchronization/utils.cc:55-65 | claims the least free id; -1 if and only if none is free |
| BitPacking.BitMatrix.Test | synchronization/utils.cc:126-126 | the byte test answers whether the edge is recorded |
| BitPacking.BitMatrix.Add | synchronization/utils.cc:226-227 | adds exactly one edge |
| BitPacking.BitMatrix.Remove | synchronization/utils.cc:301-301 | removes exactly one edge |
| BitPacking.BitMatrix.WipeRow | synchronization/utils.cc:293-293 | removes exactly the edges leaving one id |
| LockOrder.ReachesUnfold | synchronization/utils.cc:122-159 | a path is an edge, or an edge followed by a path: the search's recursion is reachability |
| LockOrder.ReachSetShrinks | synchronization/utils.cc:141-142 | following an edge of an acyclic order strictly shrinks what is reachable, so the search terminates |
| LockOrder.AddEdgeAcyclic | synchronization/utils.cc:195-226 | one more edge keeps the order acyclic if and only if its ends differ and no path leads back |
| LockOrder.CycleExactly | synchronization/utils.cc:177-237 | adding all edges held -> id closes a cycle if and only if id is held or leads to a held lock in the old order |
| Lockdep.RecordedAppend | synchronization/utils.cc:195-227 | what one more acquire or one more freed id does to the recorded pairs |
| Lockdep.HistoryTaking | synchronization/utils.cc:177-227 | an acquire that goes ahead adds exactly the pairs (held, id) to the history's relation |
| Lockdep.HistoryFreed | synchronization/utils.cc:290-303 | freeing an id takes exactly the pairs touching it out |
| Lockdep.InverseSameSize | synchronization/utils.cc:83-84 | the two name tables, being inverse, have the same size |
| Lockdep.AllTaken | synchronization/utils.cc:75-79 | all ids are in use if and only if MAX_LOCKS names are live |
| Lockdep.AddName | synchronization/utils.cc:75-91 | a new name with an unused id keeps the tables inverse, the counts positive and the ids below the high-water mark |
| Lockdep.DropName | synchronization/utils.cc:304-308 | so does dropping the name of an id, and exactly that name goes |
| Lockdep.Detector.constructor | synchronization/utils.cc:17-29 | the static tables are consistent and know nothing |
| Lockdep.Detector.GetFreeId | synchronization/utils.cc:41-66 | hands out the id freed last if it is still the hint, and else the least unnamed id; -1 if and only if every id has a name; the hint is used up |
| Lockdep.Detector.EnterName | synchronization/utils.cc:80-91 | the new name, its id and its first reference enter all tables, which stay consistent |
| Lockdep.Detector.RegisterNew | synchronization/utils.cc:75-91 | a new name gets the id freed last, or else the least free one, unless MAX_LOCKS names are live, and then the tables stay |
| Lockdep.Detector.Register | synchronization/utils.cc:68-93 | fails if and only if the name is new and MAX_LOCKS names are live; a known name keeps its id and gains a reference; a new name gets the id freed last or else the least free one, which has no edges in either direction |
| Lockdep.Detector.DoesFollow | synchronization/utils.cc:122-159 | terminates, and answers true if and only if a non-empty path leads from a to b: bounding the loop by current_max_id misses no intermediate lock |
| Lockdep.Detector.RecordEdge | synchronization/utils.cc:179-226 | one held lock: refused if and only if its edge would close a cycle, otherwise exactly this edge is in |
| Lockdep.Detector.CheckAndRecord | synchronization/utils.cc:177-237 | the loop fails if and only if all edges together would close a cycle, in any order of the held locks, and otherwise adds exactly them |
| Lockdep.Detector.WillLock | synchronization/utils.cc:161-240 | throws, aborts or succeeds exactly when it should; on success the order gains exactly held -> id, stays acyclic, and matches the history |
| Lockdep.Detector.RecordLocked | synchronization/utils.cc:256-273 | the thread holds the lock in addition; all other tables stay |
| Lockdep.Detector.WillUnlock | synchronization/utils.cc:316-331 | the thread no longer holds the lock; id -1 is ignored and other negative ids fail the ASSERT |
| Lockdep.Detector.ForgetEdges | synchronization/utils.cc:293-302 | exactly the edges and backtraces touching the id go, although the loop stops at current_max_id |
| Lockdep.Detector.FreeName | synchronization/utils.cc:305-310 | the name goes, the id is free and becomes the hint |
| Lockdep.Detector.FreeId | synchronization/utils.cc:290-311 | the whole state stays consistent when an id is freed and nothing of it is left |
| Lockdep.Detector.Unregister | synchronization/utils.cc:275-314 | one reference less; the last one frees the id, its name and its edges, and keeps the held sets sound if and only if no thread is recorded as holding the id; an unknown id only leaves a stray count |
| LockProtocol.AnchoredStep | synchronization/mutex.h:171-178 | the steps of lock and try_lock up to the acquire and the two ends of a wait lose no mutex behind a recorded id, whatever callers promise |
| LockProtocol.FastAttemptOrGrantStrict | synchronization/mutex.h:176-178 | with both promises an acquire, at once or after blocking, never gives a thread two mutexes of one name |
| LockProtocol.UnrecordHeldLocal | synchronization/mutex.h:184-190 | between _will_unlock and the release the mutex's id is not recorded, and every recorded id still has a mutex behind it |
| LockProtocol.WaitLocal | synchronization/condition_variable.cc:10-17 | a condition wait releases the mutex while its id stays recorded as held |
| LockProtocol.RegainStrict | synchronization/condition_variable.cc:17-20 | with both promises the unchecked retake after a wait keeps owned names distinct and recorded |
| LockProtocol.CreateKeeps | synchronization/mutex.h:27-33 | constructing a mutex keeps the invariant of all runs; references count mutexes |
| LockProtocol.DestroyKeeps | synchronization/mutex.h:35-41 | destroying one does too; an id freed thereby is in nobody's held set |
| LockProtocol.ApplyKeeps | synchronization/mutex.h:158-191 | every step, whatever callers promise, keeps the order acyclic, the tables about live ids, and a mutex behind every recorded id |
| LockProtocol.RunKeepsInv | synchronization/mutex.h:158-191 | so this holds in every state of every run of every discipline |
| LockProtocol.RefusalIsExact | synchronization/utils.cc:177-237 | in every run, promises kept or not, the order is acyclic and the process is aborted if and only if the thread is recorded as holding the id or a recorded path leads from it to a held lock |
| LockProtocol.OnlyLiveIds | synchronization/utils.cc:275-314 | in every run, promises kept or not, references are numbers of live mutexes, and dead ids are in no edge and no held set, so reuse inherits nothing |
| LockProtocol.OwnershipMoves | synchronization/mutex.h:158-191 | mutual exclusion: a thread gets the mutex it wants exactly when nobody owns it and loses exactly the one it gives up, and a lock blocks exactly when another thread owns the mutex |
| LockProtocol.NeverBlockedOnOwn | synchronization/mutex.h:109-117 | in every run, promises kept or not, no thread is blocked on a mutex that it owns |
| LockProtocol.StrictKept | synchronization/mutex.h:158-191 | with both promises every step keeps owned locks recorded and before the one their owner waits for |
| LockProtocol.RunKeepsStrict | synchronization/condition_variable.cc:10-21 | so this holds in every state of every run whose callers keep them |
| LockProtocol.OwnerWaitsLater | synchronization/utils.cc:161-240 | in a circular wait the owner would wait for a lock strictly later in the order |
| LockProtocol.NoCircularWait | synchronization/utils.cc:161-240 | the invariant excludes circular waits of any length |
| LockProtocol.DeadlockFreedom | README.md:7 | no state of any run whose callers keep both promises contains a circular wait |
| LockDiscipline.TryLockOnHeldNameDeadlocks | synchronization/mutex.h:158-169 | without the first promise some run ends in an unreported circular wait |
| LockDiscipline.UnorderedWaitDeadlocks | synchronization/condition_variable.cc:10-21 | without the second promise some run ends in an unreported circular wait |
| LockDiscipline.DeadlockFreeExactly | README.md:7 | of the four combinations of the two promises exactly the one with both excludes circular waits |
| LockDiscipline.HeldNameCanDeadlock | synchronization/mutex.h:158-169 | from every reachable state, a try_lock that succeeds on a name already held can be continued to an unreported circular wait |
| LockDiscipline.UnorderedWaitCanDeadlock | synchronization/condition_variable.cc:10-21 | from every reachable state, so can a wait with an owned lock from which no recorded path leads to the one given up |
| LockDiscipline.SleeperCanDeadlock | synchronization/condition_variable.cc:17-20 | so can any state in which such a waiter sleeps |
| LockDiscipline.PathIsNotEnough | synchronization/utils.cc:290-303 | a reachable wait with a recorded path from every other lock that can still be continued to a circular wait, because unregistering a lock forgets its edges |
| CheckedLocks.CheckedLocks.constructor | synchronization/utils.cc:17-29 | a new program of any discipline, with tables of its own |
| CheckedLocks.CheckedLocks.Construct | synchronization/mutex.h:27-33 | registers on the byte tables; throws if and only if MAX_LOCKS other names are live; otherwise is the step Create |
| CheckedLocks.CheckedLocks.Destruct | synchronization/mutex.h:35-41 | unregisters on the byte tables and is the step Destroy: a freed id is held by nobody |
| CheckedLocks.CheckedLocks.WillLock | synchronization/mutex.h:174-175 | the detector aborts if and only if the step CheckOrder crashes, and otherwise its tables are those of the step |
| CheckedLocks.CheckedLocks.Locked | synchronization/mutex.h:162-165 | is the step RecordHeld on the detector's tables |
| CheckedLocks.CheckedLocks.WillUnlock | synchronization/mutex.h:188-189 | is the step UnrecordHeld on the detector's tables |
| CheckedLocks.CheckedLocks.NeverStuck | README.md:7 | if the threads keep both promises, then whatever calls came before, the program has no circular wait |
| CheckedLocks.FreedIsNotHeld | synchronization/utils.cc:289-311 | in every run, promises kept or not, no thread is recorded as holding an id whose last mutex is destroyed |
| MutexBookkeeping.ApplyKeeps | synchronization/mutex.h:141-191 | every load, store and pthread step keeps the counters in agreement with ownership |
| MutexBookkeeping.CountersAgree | synchronization/mutex.h:141-156 | in every run the count is 1 exactly while its owner, named in locked_by, is between _post_lock and _pre_unlock, and else 0 |
| MutexBookkeeping.FaultStep | synchronization/condition_variable.cc:23-39 | the one step that can fire an ASSERT is a notify on a used condition variable while nobody has the mutex; is_locked_by_me is never wrong |
| MutexBookkeeping.FaultsExactly | synchronization/mutex.h:50-55 | up to any point of a run an ASSERT has fired or is_locked_by_me, read in two loads, has been wrong if and only if such a notify has happened |
| MutexBookkeeping.NoFaultWithMutexHeld | synchronization/condition_variable.cc:10-61 | so nothing fires in runs whose notifiers hold the mutex |
| MutexBookkeeping.UnlockedNotifyFaults | synchronization/condition_variable.cc:26-26 | a reachable state in which the ASSERT of notify_one has fired |
| MutexBookkeeping.PostLockSteps | synchronization/mutex.h:141-147 | from every state of the invariant the three steps find the count 0 and make it 1, with the caller inside |
| MutexBookkeeping.PreUnlockSteps | synchronization/mutex.h:149-156 | the four steps find the count 1 and make it 0 |
| MutexBookkeeping.DebugMutex.PostLock | synchronization/mutex.h:141-147 | equals the three steps; its ASSERT holds after every run |
| MutexBookkeeping.DebugMutex.PreUnlock | synchronization/mutex.h:149-156 | equals the four steps; its ASSERT holds after every run |
| MutexBookkeeping.DebugMutex.TryLock | synchronization/mutex.h:158-169 | succeeds if and only if nobody owns the mutex, and then the caller is counted; otherwise nothing changes |
| MutexBookkeeping.DebugMutex.Unlock | synchronization/mutex.h:184-191 | gives the mutex and the count back; no ASSERT fires |
| MutexBookkeeping.DebugMutex.IsLockedByMe | synchronization/mutex.h:50-55 | true if and only if the caller is between _post_lock and _pre_unlock, stale locked_by notwithstanding |
| MutexBookkeeping.ConditionVariable.BeginWait | synchronization/condition_variable.cc:13-17 | fails if and only if another mutex was used before; otherwise the count and the mutex are given up and no other ASSERT fires |
| MutexBookkeeping.ConditionVariable.EndWait | synchronization/condition_variable.cc:17-20 | the caller is counted again; the ASSERT of _post_lock holds |
| MutexBookkeeping.ConditionVariable.MayNotify | synchronization/condition_variable.cc:23-39 | the ASSERT holds if and only if the condition variable was never used or some thread is between _post_lock and _pre_unlock |
| PoolWork.TakeKeeps | thread/threadpool.h:114-125 | a dequeue keeps processing, the hand-off lists and the item balance of all queues right |
| PoolWork.PopKeeps | thread/threadpool.h:127-135 | so does the first half of _void_process, whichever worker runs it |
| PoolWork.PushKeeps | thread/threadpool.h:135-139 | so does the second half |
| PoolWork.FinishKeeps | thread/threadpool.h:141-150 | so does _void_process_finish, even if another worker's item is finished |
| PoolWork.EnqueueKeeps | thread/threadpool.h:180-194 | so do queue and queue_front |
| PoolWork.ClearKeeps | thread/threadpool.cc:75-77 | so does clearing any set of queues |
| PoolWork.HandOffsNeverEmpty | thread/threadpool.h:131-145 | a worker about to take from to_process or to_finish finds an entry: no ASSERT fires |
| PoolWork.Conservation | thread/threadpool.h:114-150 | enqueued = queued + to_process + running + to_finish + finished + discarded, with multiplicity |
| PoolWork.HandOffOrder | thread/threadpool.h:122-147 | items enter _process in dequeue order and _process_finish in completion order |
| PoolWork.IdleMeansFinished | thread/threadpool.cc:152-152 | processing == 0 means that everything dequeued has been finished |
| WorkerPool.SearchIsComplete | thread/threadpool.cc:169-196 | from any cursor there is a first non-empty queue ahead if and only if some queue is non-empty |
| WorkerPool.WorkKept | thread/threadpool.cc:158-207 | every step of the pool keeps the work invariant |
| WorkerPool.ClientsKept | thread/threadpool.cc:124-156 | every step, early unpauses included, keeps _pause and _draining equal to the numbers of callers, returned pauses idle, and the reason to sleep of a pauser whose unpause has not run |
| WorkerPool.PausersKept | thread/threadpool.cc:185-192 | every step keeps every sleeping pauser's reason to sleep, except the last finish with _pause and _draining zero and a pauser asleep, which loses it |
| WorkerPool.DrainersKept | thread/threadpool.cc:145-156 | every step keeps a sleeping drainer's reason to sleep, except a stop that clears its queue, which loses it |
| WorkerPool.StopEndAndDrainers | thread/threadpool.cc:73-79 | the end of a stop keeps it if and only if it clears no queue on which a drainer sleeps |
| WorkerPool.AddQueueNotStranded | thread/threadpool.cc:107-112 | registering a queue strands work if and only if it has items, the pool runs unpaused and all workers sleep |
| WorkerPool.NotStrandedKept | thread/threadpool.cc:165-204 | every other step keeps a worker awake while there is work to do |
| WorkerPool.StopKept | thread/threadpool.cc:63-67 | no worker sleeps through a stop, and workers exit only in one |
| WorkerPool.ApplyKeeps | thread/threadpool.cc:158-207 | every step keeps the whole invariant |
| WorkerPool.RunKeepsInv | thread/threadpool.cc:158-207 | so it holds in every state of every run |
| PoolSteps.RemoveTakesOne | thread/threadpool.cc:114-122 | removing a queue takes out its first occurrence and leaves everything else in place |
| PoolSteps.StartFillsUp | thread/threadpool.cc:83-94 | starting keeps the workers there are and brings their number up to what was asked for |
| PoolSteps.SubmitWakesOne | thread/threadpool.h:180-194 | submitting wakes exactly one sleeping worker, if there is one |
| PoolSteps.RoundDecides | thread/threadpool.cc:165-203 | a pass ends the worker if and only if a stop is on, and hands it an item if and only if the pool is unpaused and some registered queue is non-empty; else it sleeps |
| PoolSteps.MissKeepsPlace | thread/threadpool.cc:173-176 | a search that finds nothing leaves the place where the next one begins |
| PoolSteps.ServeMovesOn | thread/threadpool.cc:173-176 | after a dequeue the next search begins right after the queue served |
| PoolSteps.CallEndsIdle | thread/threadpool.cc:130-155 | a pause or drain stops waiting only in a step that finds nothing in flight and, for drain(q), the queue empty |
| PoolSteps.IdleEndsCall | thread/threadpool.cc:130-155 | and it does stop in such a step, when it is made or after it was woken |
| PoolSteps.DrainOfCall | thread/threadpool.cc:145-156 | a drain keeps the target it was called with until it is over |
| PoolSteps.StopEndsClean | thread/threadpool.cc:72-79 | after a stop there are no workers, the pool can be started again, and each registered queue has lost all its waiting items or none |
| PoolOrder.EnqueuedIsSubmitted | thread/threadpool.h:180-194 | in every run what counts as enqueued on a queue is what queue and queue_front were called with |
| PoolOrder.FirstInFirstOut | thread/threadpool.h:114-125 | in every run without queue_front and discarding, the items dequeued followed by those waiting are the items submitted, in the order of the calls |
| PoolOrder.FrontIsNext | thread/threadpool.h:188-194 | after queue_front(x) the next item dequeued from the queue is x, unless another was put in front or a stop discarded it |
| PoolGuarantees.NoStrandedWork | thread/threadpool.cc:165-204 | up to any point of any run, work to do never finds all workers asleep, if and only if no queue with items was registered while they slept |
| PoolGuarantees.WorkFindsAWorker | thread/threadpool.h:180-194 | then started, not stopping, not paused and a registered queue non-empty means that some worker is up |
| PoolGuarantees.PausersAreWoken | thread/threadpool.cc:124-134 | up to any point of any run, every pauser asleep un-notified has work in flight to wait for, if and only if no last finish went unnotified past a sleeping pauser |
| PoolGuarantees.PausersInForceAreWoken | thread/threadpool.cc:185-192 | in every run this holds of pausers whose unpause has not run |
| PoolGuarantees.OrderlyPausersAreWoken | thread/threadpool.cc:136-143 | in runs whose unpauses wait for their pauses it holds of all |
| PoolGuarantees.DrainersAreWoken | thread/threadpool.cc:145-156 | up to any point of any run, every drainer asleep un-notified has work in flight or a non-empty queue to wait for, if and only if no stop cleared a queue on which a drainer slept |
| PoolGuarantees.PauseExcludesWork | thread/threadpool.cc:124-143 | while any pause has returned and its unpause has not run, nothing is in flight and the next step dequeues nothing |
| PoolGuarantees.DrainMeansFinished | thread/threadpool.cc:145-156 | when a drain(q) made in any earlier step stops waiting, nothing is in flight and every item ever submitted on q is finished or was discarded by a stop |
| PoolGuarantees.CallEndMeansIdle | thread/threadpool.cc:124-156 | when any pause or drain stops waiting, no worker is in flight and every item ever dequeued from any queue is finished |
| PoolGuarantees.ItemsAreConserved | thread/threadpool.cc:173-196 | in every state of every run the items submitted are those queued, in to_process, running, in to_finish, finished and discarded, with multiplicity |
| PoolGuarantees.HandOffIsSound | thread/threadpool.cc:176-187 | in every run processing counts the workers in flight, the list lengths count the workers in each phase, the lists keep order, no ASSERT fires |
| PoolGuarantees.StopLosesNothingInFlight | thread/threadpool.cc:59-81 | when stop reaches its _clear loop nothing is in flight and every dequeued item is finished; afterwards _stop is down, no worker is left, and a queue has lost exactly its waiting items or nothing |
| PoolGuarantees.StepTowards | thread/threadpool.cc:173-176 | a dequeue elsewhere brings the cursor closer to a waiting queue; other steps leave it in place |
| PoolGuarantees.BoundedBypass | thread/threadpool.cc:169-198 | with a fixed list of n queues, a queue that stays non-empty is served within n dequeues by any workers |
| PoolLimits.RegisteringAgainStrandsWork | thread/threadpool.cc:107-112 | a run with one worker that leaves an item in a registered queue and the worker asleep |
| PoolLimits.EarlyUnpauseStrandsPauser | thread/threadpool.cc:185-192 | a run with one worker that leaves a pause asleep with nothing in flight |
| PoolLimits.StopStrandsDrainer | thread/threadpool.cc:73-79 | a run with one worker that leaves a drain asleep with nothing in flight and its queue empty |
| ThreadPool.ThreadPool.StartThreads | thread/threadpool.cc:83-94 | the loop creates exactly the missing workers, no more and no fewer |
| ThreadPool.ThreadPool.AddWorkQueue | thread/threadpool.cc:107-112 | the queue is registered last, new or known; strands work exactly when the step AddQueue does |
| ThreadPool.ThreadPool.RemoveWorkQueue | thread/threadpool.cc:114-122 | takes out the first occurrence of the queue named, and nothing else |
| ThreadPool.ThreadPool.QueueItem | thread/threadpool.h:180-194 | queue appends and queue_front prepends one item, one sleeping worker is woken if there is one, and no work is left stranded |
| ThreadPool.ThreadPool.VoidDequeue | thread/threadpool.h:114-125 | moves the first item to to_process if and only if there is one |
| ThreadPool.ThreadPool.Search | thread/threadpool.cc:169-196 | the 2*size loop finds the first non-empty queue from any cursor, and fails if and only if all queues are empty |
| ThreadPool.ThreadPool.Round | thread/threadpool.cc:165-203 | one pass under the pool lock is the step Round: leave, sleep or dequeue |
| ThreadPool.ThreadPool.BeginProcess | thread/threadpool.h:130-135 | is the step BeginProcess, with the popped item; the ASSERT holds |
| ThreadPool.ThreadPool.EndProcess | thread/threadpool.h:136-138 | is the step EndProcess |
| ThreadPool.ThreadPool.FinishItem | thread/threadpool.cc:185-192 | is the step FinishItem, with its conditional notify_all; the ASSERT holds |
| ThreadPool.ThreadPool.CallPause | thread/threadpool.cc:124-134 | is the step CallPause; waits if and only if something is in flight, and else no worker is |
| ThreadPool.ThreadPool.Unpause | thread/threadpool.cc:136-143 | is the step Unpause, which wakes all workers, whether or not the pause has returned |
| ThreadPool.ThreadPool.CallDrain | thread/threadpool.cc:145-156 | is the step CallDrain; when it does not wait, everything ever enqueued on the queue is finished or discarded |
| ThreadPool.ThreadPool.RecheckPause | thread/threadpool.cc:130-132 | is the step Recheck of a woken pauser; when it returns no worker is in flight |
| ThreadPool.ThreadPool.RecheckDrain | thread/threadpool.cc:152-155 | is the step Recheck of a woken drainer, which is over if and only if it need not wait; then no worker is in flight and everything ever enqueued is finished or discarded |
| ThreadPool.ThreadPool.StopBegin | thread/threadpool.cc:63-67 | is the step StopBegin, which wakes all workers |
| ThreadPool.ThreadPool.ClearRegistered | thread/threadpool.cc:75-77 | the loop clears exactly the registered queues whose _clear empties them |
| ThreadPool.ThreadPool.StopEnd | thread/threadpool.cc:68-79 | is the step StopEnd; nothing is in flight, all hand-off lists are empty, _stop is down and no thread is left |
| ShardedPool.WorkerStepCounts | thread/shardedthreadpool.cc:72-115 | every worker step changes the counters by exactly the change in parked workers |
| ShardedPool.CountKept | thread/shardedthreadpool.cc:81-108 | every step keeps num_paused and num_drained equal to the numbers of parked workers |
| ShardedPool.PauseKept | thread/shardedthreadpool.cc:117-139 | every step keeps all workers parked while a pause is in force |
| ShardedPool.ControllersSleepKept | thread/shardedthreadpool.cc:117-156 | every step keeps a sleeping controller's reason to sleep |
| ShardedPool.WorkersSleepKept | thread/shardedthreadpool.cc:86-105 | every step keeps a sleeping worker's flag up |
| ShardedPool.DrainKept | thread/shardedthreadpool.cc:94-108 | every step keeps the number of workers parked since an earlier drain, and untouched shards of parked workers empty |
| ShardedGuarantees.ParkedAreCounted | thread/shardedthreadpool.cc:81-108 | in every run the counters equal the numbers of parked workers |
| ShardedGuarantees.NoLostWakeUps | thread/shardedthreadpool.cc:81-156 | in every run a controller asleep un-notified is short of a parked worker, and a parked worker asleep un-notified has its flag up, despite unlocked flag reads |
| ShardedGuarantees.FlagMeansPausedLast | thread/shardedthreadpool.cc:122-135 | in every run pause_threads is up if and only if the latest of the pause and unpause calls was a pause |
| ShardedGuarantees.UnpausedPauserHangs | thread/shardedthreadpool.cc:124-137 | a pause asleep when the latest such call was an unpause returns in no continuation without another pause |
| ShardedGuarantees.PauseHoldsExactly | thread/shardedthreadpool.cc:117-139 | when a pause call turns to returned all workers are parked, and they stay so until the next unpause in every continuation if and only if no unpause has run since the latest call of pause |
| ShardedGuarantees.PauseEndsExactly | thread/shardedthreadpool.cc:124-126 | a pause at its loop condition returns if and only if all workers are parked |
| ShardedGuarantees.PauseBarrier | thread/shardedthreadpool.cc:117-128 | with no unpause while a pause waits, all workers are parked from its return to the next unpause |
| ShardedGuarantees.DrainBarrier | thread/shardedthreadpool.cc:141-156 | when a drain that was under way or begins is over, all workers are parked and untouched shards empty; every worker saw its shard empty in this drain if and only if num_drained was 0 at its start |
| ShardedGuarantees.DrainEndsExactly | thread/shardedthreadpool.cc:149-152 | a drain at its loop condition is over, with its flag down, if and only if all workers are parked |
| ShardedGuarantees.StopFlagMeansStopped | thread/shardedthreadpool.cc:41-45 | in every run stop_threads is up exactly from the first stop on |
| ShardedGuarantees.ReadingFollowsCalls | thread/shardedthreadpool.cc:81-94 | in every run a worker leaves exactly after a stop, goes to park exactly when the latest such call was a pause or a drain is under way, and otherwise goes on to _process |
| ShardedGuarantees.ParkingFollowsCalls | thread/shardedthreadpool.cc:82-107 | in every run a worker parks or stays parked exactly while the latest such call was a pause, or a drain is under way and it found its shard empty |
| ShardedGuarantees.BackToBackDrainReturnsEarly | thread/shardedthreadpool.cc:149-152 | a reachable second drain returns at once with an item waiting |
| ShardedGuarantees.UnpauseDuringPauseBreaksIt | thread/shardedthreadpool.cc:124-137 | a reachable state with a pause in force and a worker in _process |
| ShardedGuarantees.UnpauseLeavesPauserAsleep | thread/shardedthreadpool.cc:124-137 | a reachable state with such a pause |
| ShardedThreadPool.ShardedThreadPool.EnterPause | thread/shardedthreadpool.cc:82-92 | is the step EnterPause |
| ShardedThreadPool.ShardedThreadPool.LeavePause | thread/shardedthreadpool.cc:86-92 | is the step LeavePause |
| ShardedThreadPool.ShardedThreadPool.EnterDrain | thread/shardedthreadpool.cc:94-107 | is the step EnterDrain |
| ShardedThreadPool.ShardedThreadPool.LeaveDrain | thread/shardedthreadpool.cc:99-106 | is the step LeaveDrain |
| ShardedThreadPool.ShardedThreadPool.Pause | thread/shardedthreadpool.cc:117-128 | is the step CallPause; returns if and only if all workers are parked, and then the flag is up |
| ShardedThreadPool.ShardedThreadPool.RecheckPause | thread/shardedthreadpool.cc:124-126 | is the step PauserRecheck; returns if and only if all workers are parked |
| ShardedThreadPool.ShardedThreadPool.Unpause | thread/shardedthreadpool.cc:130-139 | is the step Unpause |
| ShardedThreadPool.ShardedThreadPool.DecideDrain | thread/shardedthreadpool.cc:149-154 | one evaluation of drain's loop condition: the drain is over if and only if it need not wait |
| ShardedThreadPool.ShardedThreadPool.Drain | thread/shardedthreadpool.cc:141-156 | is the step CallDrain; is over at once if and only if all workers are parked, and then the drain barrier holds |
| ShardedThreadPool.ShardedThreadPool.RecheckDrain | thread/shardedthreadpool.cc:149-154 | is the step DrainRecheck; is over if and only if all workers are parked, and then the drain barrier holds |

## Left out

- Lockdep.Detector.Unregister: after unregistering an id that was never registered only the immediate effect is stated, because the stray count of -1 is outside balanced use.
- Work queues as objects updated in place: they are values in the pool's map, so aliasing between queue objects is not captured.
- Separate queue locks: each region under a queue's own lock is one step; the order of pool lock and queue lock is not modelled.
- Backtrace capture and demangling, and everything that is only printed.
- pthread internals, signals, CPU affinity, thread names, error returns of pthread calls.
- Heartbeats and clocks; the length of timed waits (a timed wait may end at any moment).
- Recursive mutex, shared mutex, read/write lock, `to_timespec`, waits with a predicate: counters and wrappers that would add easy members only.
- Progress that depends on the scheduler: that an awake worker eventually runs, that a stop eventually joins.
- Overlapping drains of the sharded pool, and `return_waiting_threads`, which is the user's.
- The pool's `lock`, `unlock`, `wait` and `wake` helpers, and the list of old threads, which stays empty.
- Wrap-around of the 32-bit counters and of the cursor.
