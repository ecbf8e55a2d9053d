# Concurrency protocols and linked structures, verified

A Dafny model of the parts of the repository whose correctness depends on many threads or on links
that are rewritten in place, with proofs for every run, any number of threads and every input.
`dafny verify dfyconfig.toml` checks the whole project.

| module | what it models |
|---|---|
| `FutexMutex` | the three-state futex lock and its counter client, one step per atomic operation |
| `SwapList`, `SwapListInvariant`, `SwapListTheorems`, `SwapListPlaces`, `SwapListTraversal`, `SwapListProgress`, `SwapListRuns`, `SwapListDeadlock`, `SwapListRoles` | the list whose nodes are swapped while it is traversed, with mutexes (`2.3-2.4.c`) and with rwlocks (`2.3m.c`), one step per lock, unlock, read and store |
| `Ledger`, `CondQueue`, `SemQueue`, `LinkedQueue` | the bounded queues: condition variables, semaphores, and the heap structure itself with the reader and writer loops |
| `Streaming`, `StreamingTheorems`, `StreamingProgress`, `CacheBuffer` | one loader and many clients on one cache entry, and the entry's buffer |
| `CacheSweep`, `CacheTable` | the bucket table of the cache as a finite map, and the sweep that drops expired entries |
| `CoroQueue`, `CoroMap`, `CoroRun` | the run queue and the map from thread ids to coroutines on the heap, and one scheduler running on them |
| `CoroScheduler`, `CoroSchedulerTheorems`, `CoroSchedulerReturn`, `CoroSchedulerOrders` | any number of schedulers on any number of threads, interleaved |
| `Machine`, `Tally`, `Sequences` | runs of a step machine and inductive invariants; weighted sums over threads; sequences without repetitions and sequences of sequences |

A protocol is a partial function `Step(state, event)`; `Runs` says that a sequence of enabled events
leads from one state to another. A theorem about a protocol takes an arbitrary run from the initial
state. Some states carry auxiliary values that no step reads: the abstract list and the transpositions
done so far, the values a queue has accepted and returned, the bytes a client has sent. Progress holds for
every schedule: once no new work comes, runs of the lock, the mutex list, the streams and the coroutines
are bounded and end in the good state, and a run of a blocking queue has a bounded number of steps between
deliveries. For the rwlock list the bound holds, and the end may be the deadlock described below.

Structures that the source changes in place are classes; their methods are proved against a sequence or
a finite map.

Four properties turned out to be conditional, and the exact condition of each is proved, with a run or
an input that fails outside it:

- `cache_clean_expired` is meant to drop the expired entries of a chain and keep the rest. It skips a
  loading entry without making it `prev`, so an expired entry right behind it takes the loading one out
  of the chain with it. The sweep keeps exactly the unexpired entries, and the entry counter stays
  right, if and only if no loading entry stands directly before an expired one.
- A list of 3 nodes passes the guard of `safe_swap_nodes` and makes its modulus zero. Every run on a
  list of any other length is free of that fault.
- The mutex list is free of deadlock. The rwlock list of `2.3m.c` takes its write locks in the order in
  which a swapper remembers the nodes. With k threads that only swap and c that only traverse, as the
  program has them, a list of n nodes can deadlock if and only if k >= 2 and either n >= 5, or n = 4 and
  c >= 1. The program starts 3 of each, so it can deadlock if and only if its list has at least 4 nodes.
- A scheduler that has returned to main has finished all its coroutines, after exactly the sum of their
  yields plus one turns, if and only if none was created on it after it had returned.
  `create_coroutine` accepts such a coroutine, which is then never run.

## Model

| member | source | states |
|---|---|---|
| `FutexMutex.WordKept` | sync/2.4/mutex/mutex.c:7-41 | every atomic step keeps the word in {0, 1, 2} and non-zero exactly while one thread owns the lock or is past its fetch_sub and before its store of 0 |
| `FutexMutex.WakeupKept` | sync/2.4/mutex/mutex.c:18-41 | every atomic step keeps: with sleepers, the word is 2 or an unlock is in flight or a slow-path locker is awake |
| `FutexMutex.TotalKept` | sync/2.4/tests.c:31-42 | every step keeps the counter plus the increments still to be stored |
| `FutexMutex.MutualExclusion` | sync/2.4/mutex/mutex.c:7-41 | in every reachable state at most one thread is in the critical section or before its store of 0, and the word says whether there is one |
| `FutexMutex.NoLostWakeup` | sync/2.4/mutex/mutex.c:18-41 | in every reachable state a sleeper implies word 2, an unlock in flight or an awake contender; and somebody is always there to wake it |
| `FutexMutex.CounterExact` | sync/2.4/tests.c:31-42 | when all threads are done, the counter with split load and store equals threads times iterations |
| `FutexMutex.FreeLockIsTaken` | sync/2.4/mutex/mutex.c:18-33 | in every reachable state a trylock takes a lock that nobody holds, with word 1, and otherwise changes nothing; so does the first attempt of a lock call, which otherwise goes to the slow path with the word it saw |
| `FutexMutex.LoneRound` | sync/2.4/mutex/mutex.c:18-41 | a thread that finds the lock free and meets nobody locks, increments and unlocks without a system call, and leaves the lock free |
| `FutexMutex.WordChanges` | sync/2.4/mutex/mutex.c:18-41 | the word changes only by taking a free lock, by marking a lock that the marker saw uncontended, and by its holder |
| `FutexMutex.StepLowers` | sync/2.4/mutex/mutex.c:18-41 | every step lowers one bound, except that a trylock may leave it and a wake-up for no reason may raise it by a constant |
| `FutexMutex.EveryRunEnds` | sync/2.4/mutex/mutex.c:18-41 | every schedule ends: its length is bounded from the start but for trylocks and wake-ups for no reason; and it stops only with all rounds done and the counter exact |
| `FutexMutex.CanAlwaysFinish` | sync/2.4/mutex/mutex.c:18-41 | from every reachable state all threads can complete their iterations without spurious wake-ups |
| `SwapListInvariant.StepKeeps` | sync/2.3/2.3-2.4.c:104-331 | every lock, unlock, read and store keeps the invariant of links, locks and cursors, for both programs |
| `SwapListInvariant.ValidatePlanned` | sync/2.3/2.3m.c:323-334 | validation under write locks re-establishes that the three remembered nodes are consecutive, inner and followed by a node |
| `SwapListInvariant.Store1Keeps` | sync/2.3/2.3-2.4.c:319 | the first pointer store keeps the invariant; the abstract list is transposed here |
| `SwapListInvariant.Store2Keeps` | sync/2.3/2.3-2.4.c:320 | the second pointer store keeps the invariant |
| `SwapListInvariant.Store3Keeps` | sync/2.3/2.3-2.4.c:321 | the third pointer store keeps the invariant and completes the links |
| `SwapListInvariant.ExchangeSucc` | sync/2.3/2.3-2.4.c:317-321 | successors after exchanging two neighbours: three links change, no other |
| `SwapListTheorems.NoFault` | sync/2.3/2.3-2.4.c:104-331 | no run dereferences NULL or releases a lock it does not hold; the zero modulus needs a list of 3 |
| `SwapListTheorems.TrapAtThree` | sync/2.3/2.3-2.4.c:283-288 | on a list of 3 the first swap divides by zero |
| `SwapListTheorems.EndsFixed` | sync/2.3/2.3-2.4.c:116-123 | first and tail never move, and only the tail has a NULL link, even between the stores of a swap |
| `SwapListTheorems.CursorExact` | sync/2.3/2.3-2.4.c:288-310 | a swapper's `prev` is at position ind - 1 of the list as it is now; the give-up branch is never taken |
| `SwapListPlaces.SwapsWhereDrawn` | sync/2.3/2.3-2.4.c:288-319 | a swap happens at the position drawn for it, rand() modulo size - 3, plus 1: when it stores in the mutex program, when it reads the three nodes in the rwlock program |
| `SwapListPlaces.EveryPairCanBeSwapped` | sync/2.3/2.3-2.4.c:288-328 | in both programs, for every inner position there is a run of one swapper that exchanges exactly that pair and is done |
| `SwapListTheorems.SwapsNeighbours` | sync/2.3/2.3m.c:314-342 | a swap that passes validation has three consecutive nodes with a successor, exchanges inner nodes, and holds all three exclusively |
| `SwapListTheorems.ComparesNeighbours` | sync/2.3/2.3-2.4.c:117-140 | a traversal compares a node with its successor in the list of that moment, both locked |
| `SwapListTraversal.EndsAtTail` | sync/2.3/2.3-2.4.c:116-151 | a traversal ends of its own accord only at the tail |
| `SwapListTraversal.ComparesEveryPair` | sync/2.3/2.3-2.4.c:115-151 | a traversal during which no swap is recorded, whatever else the others do, compares every node with its successor, in order, each once |
| `SwapListTraversal.TraversalHappens` | sync/2.3/2.3-2.4.c:115-151 | one traversal alone runs to its end and compares all pairs of the initial list |
| `SwapListTraversal.StopsCleanly` | sync/2.3/2.3-2.4.c:112-116 | a thread that sees `stop` holds no lock and is done |
| `SwapListTheorems.FollowOrder` | sync/2.3/2.3-2.4.c:116-151 | with no swap half done, following the links gives the abstract list |
| `SwapListTheorems.ListIsTransposedInitialList` | sync/2.3/2.3-2.4.c:312-328 | the list is the initial one under adjacent inner transpositions, as many as the swap counters plus swaps not yet counted; same nodes, acyclic |
| `SwapListProgress.WantsSuccessor` | sync/2.3/2.3-2.4.c:117-123 | a lock holder waits only for the list successor of the furthest node it holds |
| `SwapListProgress.WaitingClimbs` | sync/2.3/2.3-2.4.c:295-325 | a thread that is waited for, and waits itself, wants a node further down the list |
| `SwapListProgress.NobodyWaitsForItself` | sync/2.3/2.3-2.4.c:295-325 | no chain of waiting threads, of any length, is a cycle |
| `SwapListProgress.ChainEnds` | sync/2.3/2.3-2.4.c:117-149 | from every thread with something to do, the chain of threads each waiting for the next ends at one that can step |
| `SwapListRuns.StatementLowers` | sync/2.3/2.3m.c:289-346 | every statement of every thread, a retry after a failed validation included, lowers one bound, although swaps move the nodes that traversals stand on and swappers remember |
| `SwapListRuns.EveryRunEnds` | sync/2.3/2.3m.c:284-348 | every run of statements alone, retries included, is bounded, in both programs; in the mutex program it ends with all threads done and no lock held |
| `SwapListRuns.RetriesArePaidFor` | sync/2.3/2.3m.c:327-332 | in every run there are at most as many retries as swaps done, times the number of other threads |
| `SwapListRuns.LocksCanAlwaysBeReleased` | sync/2.3/2.3-2.4.c:117-149 | from every reachable state the threads' own next statements lead to a state with all threads done and no lock held |
| `SwapListDeadlock.StaysJammed` | sync/2.3/2.3m.c:323-325 | a swapper that remembers nodes in their old order and the thread it waits for never step again, whatever others do |
| `SwapListRoles.LoneSteps` | sync/2.3/2.3m.c:290-342 | with at most one swapper, while anybody has something to do somebody can step: what the swapper remembers stays consecutive |
| `SwapListRoles.FourSteps` | sync/2.3/2.3m.c:290-342 | so it is with swappers alone on 4 nodes: all of them start at the first node |
| `SwapListRoles.CanDeadlock` | sync/2.3/2.3m.c:314-325 | with 2 swappers and 5 nodes, or 4 and a traversal, a run in which swappers only swap and traversals only traverse ends in a deadlock for ever |
| `SwapListRoles.DeadlockIff` | sync/2.3/2.3m.c:290-342 | a deadlock is reachable if and only if there are at least 2 swappers, and 5 nodes, or 4 and a traversal |
| `SwapListRoles.ProgramDeadlockIff` | sync/2.3/2.3m.c:426-438 | with the program's 3 swappers and 3 traversals: if and only if there are at least 4 nodes |
| `Ledger.WriterInStep` | sync/2.2d.c:67-72 | what the writer has written stays 0, 1, 2, ... |
| `Ledger.ReaderInStep` | sync/2.2d.c:42-55 | what the reader takes is the number it expects |
| `Ledger.ReaderReports` | sync/2.2d.c:42-55 | the reader reports an error if and only if what it reads is not 0, 1, 2, ... |
| `CondQueue.NoticedKept` | sync/2.2f.c:101-163 | no step leaves a parked thread with supply that nobody has been or will be told of |
| `CondQueue.StepKeeps` | sync/2.2f.c:101-163 | every step keeps the whole invariant of the condition-variable queue |
| `CondQueue.Fifo` | sync/2.2f.c:101-163 | returned values followed by the contents are the accepted values; the count is exact and bounded; no assert or NULL dereference fails |
| `CondQueue.NoLostWakeup` | sync/2.2f.c:101-163 | with the mutex free, a parked consumer implies at most as many items as woken consumers, and likewise for producers and slots |
| `CondQueue.EveryScheduleDelivers` | sync/2.2f.c:101-163 | in every run all but 8 (capacity + threads) steps are paid for by deliveries, 16 by each, or by wake-ups for no reason, 4 by each |
| `CondQueue.NeverStops` | sync/2.2f.c:101-163 | with capacity, a reader and a writer some thread can always step without a spurious wake-up |
| `CondQueue.CanAlwaysDeliver` | sync/2.2f.c:101-163 | from every reachable state one more item can be delivered, without spurious wake-ups |
| `CondQueue.ReaderNeverSurprised` | sync/2.2d.c:42-55 | with one writer and one reader the mismatch branch is unreachable |
| `SemQueue.StepKeeps` | sync/2.2g.c:101-161 | every step keeps the whole invariant of the semaphore queue |
| `SemQueue.Conservation` | sync/2.2g.c:101-161 | `empty` + `full` + calls in flight = capacity, and count = `full` + items inserted but not posted + items promised but not removed |
| `SemQueue.Fifo` | sync/2.2g.c:101-161 | first in, first out; insertion always finds a slot and removal an item |
| `SemQueue.EveryScheduleDelivers` | sync/2.2g.c:101-161 | in every run all but 5 (capacity + threads) steps are paid for by deliveries, 10 by each |
| `SemQueue.NeverStops` | sync/2.2g.c:101-161 | with capacity, a reader and a writer some thread can always step |
| `SemQueue.CanAlwaysDeliver` | sync/2.2g.c:101-161 | from every reachable state one more item can be delivered |
| `SemQueue.ReaderNeverSurprised` | sync/2.2d.c:67-73 | with one writer and one reader the mismatch branch is unreachable |
| `LinkedQueue.Queue.Append` | sync/2.2e.c:111-116 | the node goes to the end; the `last` that is written through is the true last node and has not been freed |
| `LinkedQueue.Queue.Insert` | sync/2.2e.c:102-119 | the value goes to the end of the sequence; count and add_count follow |
| `LinkedQueue.Queue.RemoveStale` | sync/2.2e.c:138-145 | the first value is removed; an emptied queue keeps a `last` that points at a freed node |
| `LinkedQueue.Queue.RemoveReset` | sync/2.2f.c:147-157 | the same with `last` reset, which then never points at a freed node |
| `LinkedQueue.Queue.Add` | sync/2.2e.c:88-123 | refused exactly when full, otherwise an append on the sequence |
| `LinkedQueue.Queue.Get` | sync/2.2e.c:125-149 | refused exactly when empty, otherwise removes the first value |
| `LinkedQueue.Clients` | sync/2.2d.c:42-73 | under every schedule of reader and writer calls the reader reports no error, and the values it has read are a prefix of the values written, which are 0, 1, 2, ... |
| `StreamingTheorems.StepKeeps` | proxy/src/cache/cache.c:268-336 | every step of loader and clients keeps the invariant |
| `StreamingTheorems.ChunksGiven` | proxy/src/cache/cache.c:299-300 | the body is made of the chunks that the loader was given, whole and in order |
| `StreamingTheorems.StreamsTheBody` | proxy/src/domain/backend.c:232-304 | what a client has sent is the first last_offset bytes of the chunks given to the loader; no CACHE_FOUND or CACHE_ERROR; closing without a failed write means the whole body was sent |
| `StreamingTheorems.TakesAPacket` | proxy/src/cache/cache.c:184-193 | a client that finds unsent bytes takes all of them, up to 16384 |
| `StreamingTheorems.RegistersThenWaits` | proxy/src/domain/backend.c:310-325 | a client without new bytes registers as the first to be notified, looks again only if there is something new, and waits otherwise |
| `StreamingTheorems.NoStall` | proxy/src/domain/backend.c:305-325 | an idle client is registered and has sent all there is of an unfinished load, or has a wake-up pending, or the loader still owes it one |
| `StreamingTheorems.NotifiesOnlyOpenClients` | proxy/src/cache/cache.c:426-445 | the loader never notifies a client that has closed |
| `StreamingProgress.StepLowers` | proxy/src/domain/backend.c:222-332 | every step of loader and clients, except a new chunk, lowers one bound |
| `StreamingProgress.EveryStreamEnds` | proxy/src/domain/backend.c:419-443 | without new chunks every schedule ends within a bound known at its start, with the load finished; a client that was started is then closed, and has sent all the chunks given to the loader unless a write of its own failed |
| `StreamingProgress.CanAlwaysComplete` | proxy/src/domain/backend.c:419-443 | from every reachable state load and streams can be brought to their end without cutting off anybody |
| `StreamingProgress.EveryBodyCanBeServed` | proxy/src/domain/backend.c:232-304 | for any chunks and any number of clients there is a run in which every client receives the whole body and is closed |
| `CacheBuffer.EntryData.constructor` | proxy/src/cache/cache.c:27-31 | an empty, loading entry with a buffer of the given size, 4096 for 0 |
| `CacheBuffer.EntryData.Append` | proxy/src/cache/cache.c:268-307 | fails exactly when loading has finished, or the buffer has to grow and realloc fails, and then leaves the bytes; otherwise appends the chunk; a buffer that is too small is doubled as often as needed and no more |
| `CacheBuffer.EntryData.Finish` | proxy/src/cache/cache.c:309-336 | finishes once, keeps the bytes, and trims the buffer if realloc succeeds |
| `CacheBuffer.EntryData.LookupPartial` | proxy/src/cache/cache.c:155-208 | the status for an offset and, where there are bytes left, all of them or as many as were asked for |
| `CacheTable.Hash` | proxy/src/cache/cache.c:414-424 | the shift-and-add loop in 64 bits computes 33 h + c per character, reduced to a bucket |
| `CacheTable.HashIsPolynomial` | proxy/src/cache/cache.c:414-424 | the hash is 5381 times 33 to the length plus every char times 33 to the number of chars after it, in 64 bits |
| `CacheTable.Bucket.Find` | proxy/src/cache/cache.c:151-211 | finds the entry of the key if and only if the chain has one |
| `CacheTable.Bucket.Splice` | proxy/src/cache/cache.c:394-398 | a store through `prev` or into the head unlinks exactly what lies between |
| `CacheTable.Bucket.Cancel` | proxy/src/cache/cache.c:345-364 | removes the entry of the key, and nothing else, if and only if it is loading |
| `CacheTable.Bucket.Clean` | proxy/src/cache/cache.c:381-407 | the pointer loop computes the sweep of the chain and counts the expired entries |
| `CacheTable.Table.constructor` | proxy/src/cache/cache.c:74-109 | 1024 buckets by default, all empty, and the given ttl |
| `CacheTable.Table.MapsUnique` | proxy/src/cache/cache.c:222-246 | a key is mapped to at most one entry |
| `CacheTable.Table.Find` | proxy/src/cache/cache.c:146-215 | lookup agrees with the finite map |
| `CacheTable.Table.StartLoading` | proxy/src/cache/cache.c:222-246 | on the map: the key gets a new loading entry, accessed now, if it had none; nothing else changes, the counter stays the number of entries |
| `CacheTable.Table.CancelLoading` | proxy/src/cache/cache.c:338-368 | on the map: the key is removed if and only if its entry is loading, nothing else changes, the counter stays right |
| `CacheTable.Table.CleanExpired` | proxy/src/cache/cache.c:370-412 | on the map: what is left is loading or was accessed within the ttl; where in no chain a loading entry stands directly before one past its ttl, every such entry is left, and that is exactly where the counter stays right |
| `CacheTable.SweptChain` | proxy/src/cache/cache.c:385-407 | what a sweep leaves of a chain, said by is_loading, last_accessed, ttl and time |
| `CacheTable.SweptMap` | proxy/src/cache/cache.c:370-412 | what a sweep leaves of the map, in the same terms |
| `CacheTable.EarlierSweepKeeps` | proxy/src/cache/cache.c:393 | what a sweep keeps an undisturbed sweep at an earlier time keeps too, and one at the time of the last access always does |
| `CacheSweep.SweepKeepsExactlyUnexpired` | proxy/src/cache/cache.c:385-407 | the sweep of a chain is its unexpired entries in order if and only if no loading entry stands directly before an expired one |
| `CacheSweep.SweepCount` | proxy/src/cache/cache.c:400-402 | the chain shrinks by what the counter loses under that condition, and by more otherwise |
| `CacheSweep.LoadingEntryLost` | proxy/src/cache/cache.c:387-391 | a loading entry before an expired one is lost |
| `CacheSweep.SweepMembers` | proxy/src/cache/cache.c:385-407 | whatever a sweep leaves was in the chain and has not expired |
| `CoroQueue.Queue.Push` | threads/lab1.8/coroutines/coro_queue.c:12-37 | append to the sequence |
| `CoroQueue.Queue.Pop` | threads/lab1.8/coroutines/coro_queue.c:39-59 | removes the first, or reports an empty queue |
| `CoroQueue.Queue.Clear` | threads/lab1.8/coroutines/coro_queue.c:61-78 | frees every node exactly once and leaves an empty queue |
| `CoroMap.HashTidSixteen` | threads/lab1.8/coroutines/coro_map.c:4-8 | with the default capacity ids share a bucket exactly when they are equal modulo 16, negative ones included |
| `CoroMap.TidMap.constructor` | threads/lab1.8/coroutines/coro_map.c:10-27 | an empty map with the default capacity for 0 |
| `CoroMap.TidMap.Destroy` | threads/lab1.8/coroutines/coro_map.c:29-52 | frees every node of every chain, each once, and leaves an empty map without buckets |
| `CoroMap.TidMap.Add` | threads/lab1.8/coroutines/coro_map.c:54-86 | map update; a NULL coroutine and a destroyed map are refused |
| `CoroMap.TidMap.Get` | threads/lab1.8/coroutines/coro_map.c:88-108 | map lookup, NULL exactly for an absent id |
| `CoroMap.TidMap.SizeIsDomain` | threads/lab1.8/coroutines/coro_map.c:79-83 | `size` is the number of ids in the map |
| `CoroRun.Scheduler.Next` | threads/lab1.8/coroutines/coroutine.c:80-87 | pops the first queued coroutine and makes it the current one of the thread, or finds the queue empty |
| `CoroRun.Scheduler.Yeild` | threads/lab1.8/coroutines/coroutine.c:134-136 | the current coroutine of the thread goes to the end of the queue |
| `CoroRun.RunCoroutine` | threads/lab1.8/coroutines/coroutine.c:93-144 | a turn: creations, then a yield or the end, with the turns of every coroutine still accounted for |
| `CoroRun.RunScheduler` | threads/lab1.8/coroutines/coroutine.c:73-91 | on the heap structures, for coroutines that yield and create others: the loop returns to main with an empty queue after exactly the turns the queued scripts amount to, each coroutine queued or created having had its yields plus one, and exactly the creations on other schedulers ordered |
| `CoroSchedulerTheorems.StepKeeps` | threads/lab1.8/coroutines/coroutine.c:73-144 | every step of every thread keeps the invariant of queues, map and coroutines |
| `CoroSchedulerTheorems.ExactlyOnePlace` | threads/lab1.8/coroutines/coroutine.c:73-144 | each coroutine is in exactly one of queued (once, on its own scheduler), in a turn on its own thread, or finished; its turns done and left are its yields plus one |
| `CoroSchedulerTheorems.YieldIsLocal` | threads/lab1.8/coroutines/coroutine.c:125-144 | `yeild` finds the coroutine running on the calling thread and requeues it on its own scheduler, touching no other queue |
| `CoroSchedulerTheorems.RoundRobin` | threads/lab1.8/coroutines/coroutine.c:78-90 | the next turns go to the queued coroutines in order, whatever else happens |
| `CoroSchedulerTheorems.FairTurn` | threads/lab1.8/coroutines/coroutine.c:78-90 | before its next turn a queued coroutine sees exactly one turn of each one ahead of it, and no other |
| `CoroSchedulerTheorems.GoLowers` | threads/lab1.8/coroutines/coroutine.c:73-144 | every step of a thread lowers the number of steps due by one |
| `CoroSchedulerTheorems.EveryRunEnds` | threads/lab1.8/coroutines/coroutine.c:73-144 | every schedule of the threads ends, within a number of steps known beforehand |
| `CoroSchedulerTheorems.OnlyReturnedStops` | threads/lab1.8/coroutines/coroutine.c:78-91 | a thread can step unless its scheduler has returned to main |
| `CoroSchedulerReturn.ReturnsAfterAllTurns` | threads/lab1.8/coroutines/coroutine.c:73-123 | a returned scheduler has finished all its coroutines, and has given out exactly the sum of their yields plus one turns, if and only if none was created on it after its return; so always when no coroutine creates on a foreign scheduler |
| `CoroSchedulerReturn.ReturnedOnlyCollects` | threads/lab1.8/coroutines/coroutine.c:80-85 | a returned scheduler stays returned, and its queue only grows, by what is created on it |
| `CoroSchedulerReturn.CreatedTooLate` | threads/lab1.8/coroutines/coroutine.c:94-123 | a run in which a coroutine is created on a returned scheduler and stays queued for ever |
| `CoroSchedulerOrders.TurnsAsOrdered` | threads/lab1.8/coroutines/coroutine.c:93-144 | in every run the turns a scheduler has given out and those to come add up to what the coroutines created by the main programs come to on it |
| `CoroSchedulerOrders.EveryOrderCanBeRun` | threads/lab1.8/coroutines/coroutine.c:93-144 | whatever the main programs create, there is a run in which every scheduler returns; without foreign creations everything is then finished, in exactly the turns ordered |

## Left out

- pthread mutexes, rwlocks, condition variables, semaphores and the futex are step rules: a lock is taken when free, a condition wait may end spuriously, FUTEX_WAIT compares and sleeps in one step. `sem_wait` is not interrupted.
- Integer widths: counters, sizes, offsets and the values the writer sends are unbounded; the hash alone is computed in 64 bits.
- A negative capacity of a queue, allocation failure, and the reuse of a freed address by a later allocation.
- `add_node`, `free_list` and the counts of the traversals, which are local and discarded. The model starts from the list that `add_node` builds.
- libuv, sockets, pipes and printing: a wake-up is a flag that coalesces, a write is accepted and completes or fails later. A `uv_write` that is refused at once is not modelled.
- Streaming assumes one loader and an entry that stays in the table; the hand-over of pending waiters in `cache_start_loading`, the registration on CACHE_NOT_FOUND, and cancelling by path are not modelled.
- `current_size`, `max_size`, `max_entries`, hits and misses of the cache: never enforced or read.
- The bucket locks of `CacheTable`: each operation is modelled as one critical section. The loader clears `is_loading` and renews the access time without that lock, so a sweep may see an entry change while it runs; the model sweeps the entries as they are at its start.
- A `realloc` to 0 bytes that frees the buffer and returns NULL: a `realloc` that fails leaves the buffer as it was.
- Context switches, stacks and their freeing in `coroutine.c`: a coroutine is a script of yields and creations, and switching is a change of phase. The map and queue calls are the atomic steps.
- `CoroRun` follows one scheduler; what its coroutines create elsewhere is handed back, and several threads are in `CoroScheduler`.
- Running a scheduler a second time after it has returned, and the init counter of `coro_init` and `coro_fini`.
- Thread pools, the spinlock, the kernel-thread and `threads/1.x` examples, backend selection, `sync/2.1*` and `sync/2.2a-c`, `sync/queue.c`: system calls, or the same queue body with another lock.
