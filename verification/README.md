# Loomworks, verified

A Dafny model of the concurrent core of the loomworks library: the thread pool's lock-free ring, its node
free-list and per-thread node caches, the work-stealing deques, priority lanes, cancel index, sleep/wake
protocol and counters; the timer heap and the hand-over of sleeping coroutines; the DAG engine; and task
groups.

Lock-free and lock-based protocols are transition systems: a state, one step per atomic access or critical
section, any number of threads, any schedule. A result about such a system is stated for every state of every run
(`Runs.IsRun`). Operations that are sequential under a lock are classes, arrays and loops, each tied to a value
(a map, a multiset, a queue in order of arrival) that it is proved to implement.

| module | what it covers |
|---|---|
| `Ring` | bounded multi-producer ring with batch consumers, sequence numbers only |
| `NodeStack` | tagged free-list with batch pop and push |
| `NodeCache` | per-thread node caches over several pools |
| `Dag`, `DagGraph` | building a task graph, the cycle check, submit |
| `DagEngine` | releases, countdowns, failures, draining and joining of a running graph |
| `Pool` | where every task is; `queue_len`, `ring_count`, cancel against run, shutdown exit, index size |
| `PoolExit` | what a worker's shutdown exit means for the rest of the run |
| `PoolIndex` | the pool together with its cancel index: the index mirrors the pool and never fills up |
| `Wakeup`, `Owners` | sleeping workers and their counting semaphore; waking the owner of a ready coroutine |
| `Capacity` | the bound on `queue_len` |
| `CancelIndex`, `Sizing` | open addressing with tombstones; the sizes chosen at creation |
| `WorkDeque`, `Lanes`, `Bits` | deques, steal scan and one worker pass; 256 linked buckets with a bitmap |
| `TimerHeap`, `Sleepers` | the deadline heap and the timer thread's drain; parked coroutines |
| `TaskGroup` | completion accounting, cancel, wait, destroy |
| `Runs`, `Codes`, `Collections` | runs of a transition system; result codes; shared facts and sizes |

Assumptions, everywhere: memory is sequentially consistent and counters do not wrap (2^64 ring positions, 2^32
stack tags). An insertion into the cancel index is one step although the code checks and then stores. The pool
runs every wrapper it accepted from a DAG once, and cancels a group's task with OK only while it is queued; `Pool`
proves the exclusion behind the second.

Where the code and its comments, or what one would expect of it, differ:

- `next_pow2_u64` rounds up strictly, although its comment says "not below"; the two agree exactly for arguments that
  are not powers of two (`Sizing.CommentHoldsIff`). The ring needs the strict reading: with one cell it loses tasks
  (`Ring.SizeOneOverwrites`).
- `wait_for_space` lets a blocking submitter through a full queue when shutdown is set. Without shutdown, P submitters
  reach capacity + P - 1 and never exceed it; with shutdown they reach capacity + 2P - 1 and never exceed that
  (`Capacity.CapacityBound`, `PlainBoundReached`, `ShutdownOverruns`, `OverrunIffShutdown`).
- A batch claim of the ring uses a weak compare-and-swap and gives up when it fails. A spurious failure loses the
  wake-up of a published task exactly if nobody else was to look at the ring: no token, nobody about to post, no other
  worker on its way there. The only other ways to lose it concern the last worker's exit (`Wakeup.WatchLostIff`,
  `WatchRegainedIff`, `NoLostWakeup`, `SpuriousFailureStrands`).
- The timer thread wakes the owner of a ready coroutine with a token of the semaphore all workers share. Another worker
  can take it, find nothing and sleep while the owner sleeps on; this can happen exactly in pools of two or more workers
  (`Owners.OwnerForgottenIff`, `ReadyLeftIff`, `StrandsIffShared`).
- A submitter that has passed the shutdown check can publish after the last worker has left; its task is reported as
  accepted and stays in the ring. After an exit nothing is ever queued again exactly if the ring is empty at the exit and
  no submitter is between the check and its ring claim (`PoolExit.ExitFinalIff`, `AcceptedAndNeverRun`, `LeftInRing`).
- A lookup of task id 0 in the cancel index can return the task of a removed entry, because the key of id 0 is the
  tombstone mark; for every other id the lookup agrees with the map (`CancelIndex.AnswersAsMapIff`,
  `ZeroFindsLeftover`).
- The root loop of `loom_dag_submit` ignores `failed`, so a drained DAG can stop being drained until submit has
  returned, exactly while a root is left (`DagEngine.DrainLostIffRootsLeft`, `DrainCanBeLost`).
- `task_group_cancel_node` does not signal: a waiter can sleep on with nothing pending, exactly when a cancel made the
  last decrement (`TaskGroup.LastDecrementWakesIff`, `StrandedOnlyByCancel`, `CancelStrandsWaiter`).

## Model

| member | source | states |
|---|---|---|
| Ring.TakenExactlyOnceInClaimOrder | src/thread_pool.c:1855-1927 | in every state of every run with any number of producers and batch consumers and a ring of at least two cells, the tasks handed out are exactly the first `head` claims in claim order, history is never revised, and every published untaken task is intact in its cell |
| Ring.BatchesAreDisjointRuns | src/thread_pool.c:1896-1927 | a consumer's batch is a contiguous run of claims and no two consumers hold the same position |
| Ring.RefinesQueue | src/thread_pool.c:1855-1927 | every step of the ring is a claim, a publication, a take of published entries from the front of an abstract queue, or no change to it |
| Ring.RefusedOnlyWhenFull | src/thread_pool.c:1858-1863 | with a current tail, an enqueue is refused if and only if the position one revolution earlier is untaken or not yet released |
| Ring.RingCountTracksLength | src/thread_pool.c:1872-1926 | `ring_count` differs from tail minus head only by the threads between their CAS and their count, and is exact when nobody is inside |
| Ring.HistoryKept | src/thread_pool.c:1855-1927 | claims and takes of an earlier state are a prefix of those of any later one |
| Ring.CellIsRemainder | src/thread_pool.c:1858-1860 | the cell of a position, defined by walking, is the position modulo the ring size |
| Ring.SizeOneOverwrites | src/thread_pool.c:357-363 | with a ring of one cell there is a run in which a second producer overwrites a published task |
| Ring.InvStep | src/thread_pool.c:1855-1927 | every step of every producer and consumer keeps the ring invariant |
| NodeStack.FreeChainSound | src/thread_pool.c:1355-1434 | in every interleaving of batch pops and pushes, with nodes in use passing from thread to thread, the free chain is finite, acyclic and inside the pool, every slot is on it or owned by exactly one thread, and no thread is ever about to leave the pool |
| NodeStack.SameTagSameList | src/thread_pool.c:1380-1384 | between two moments with the same tag, however far apart, neither the list nor a link on it has changed |
| NodeStack.CasEffect | src/thread_pool.c:1380-1434 | a pop that wins its CAS detaches the first min(want, length) slots of the list of that moment, a push that wins prepends its batch, a lost CAS changes nothing shared |
| NodeStack.PopReturnsWhatItDetached | src/thread_pool.c:1384-1391 | what a pop returns is what it detached, all of it owned by the caller alone |
| NodeStack.InvStep | src/thread_pool.c:1355-1434 | every step of every thread keeps the free-list invariant |
| NodeCache.Caches.Create | src/thread_pool.c:1518-1577 | for any cache width, a node handed out for a pool is that pool's, was free or in this thread's cache; nodes in use, given up or cached by other threads stay put, and the others move only between the free stack and this cache; the caller gets nothing only if allocation failed |
| NodeCache.Caches.Obtain | src/thread_pool.c:1524-1560 | hit, refill or allocator: one node becomes live, further popped nodes become cached by this thread, nothing else changes |
| NodeCache.Caches.Destroy | src/thread_pool.c:1579-1617 | a live node ends in this thread's cache or on its own pool's stack; other nodes change only from this cache to the stack |
| NodeCache.Caches.Park | src/thread_pool.c:1588-1614 | the node joins the cache, or the whole cache and the node go onto the stack |
| NodeCache.Caches.Resolve | src/thread_pool.c:1450-1478 | an owner switch empties the cache: nodes of a registered owner become free again, nodes of a dead one are given up unread |
| NodeCache.Caches.Flush | src/thread_pool.c:1488-1508 | the cache is emptied and unowned; its nodes become free if the pool is their owner and discarded otherwise |
| NodeCache.Caches.Register | src/thread_pool.c:218-231 | a new pool gets an id that no cache mentions, with all its nodes free |
| NodeCache.Caches.Unregister | src/thread_pool.c:248-259 | the other pools' nodes keep their places while caches may still mention the dead pool's |
| NodeCache.Caches.InOnePlace | src/thread_pool.c:1436-1617 | a registered pool's node is on its stack exactly if free, once, and in a cache cell exactly if cached there |
| NodeCache.Caches.CachedIsOwners | src/thread_pool.c:1440-1448 | whatever a thread has cached belongs to the pool its owner id names |
| Dag.KahnPass | src/dag.c:395-441 | the pass reports a cycle if and only if the graph has one, for sparse ids too; in-degrees never underflow, each id is queued at most once, the `qt >= added` guard never fires, and without a cycle the queue is a topological order |
| Dag.TaskDag.Submit | src/dag.c:362-481 | one-shot; INVALID exactly for a cyclic graph, ALLOC exactly when the pass cannot allocate; otherwise countdowns hold the predecessor counts and the roots are exactly the nodes without predecessors, in id order |
| Dag.TaskDag.AddEdge | src/dag.c:303-351 | accepted if and only if both nodes were added, differ, are not joined yet and nothing was submitted; then exactly that edge is new and in-degrees still count predecessors |
| Dag.TaskDag.AddNode | src/dag.c:250-295 | accepted if and only if the id is in range and free, there is a function and nothing was submitted; then exactly that node is new and no edge changes |
| Dag.TaskDag.EnsureNodes | src/dag.c:268-274 | the node array appears zeroed on first use, or nothing changes |
| Dag.TaskDag.constructor | src/dag.c:196-240 | a new DAG is empty and not submitted |
| Dag.CountAdded | src/dag.c:373-380 | the count is the number of added ids |
| Dag.SeedQueue | src/dag.c:413-421 | the queue starts with exactly the added ids of in-degree 0 |
| Dag.HandleSuccessors | src/dag.c:424-440 | dequeuing an id takes it off the remaining predecessors of each successor and queues exactly those that ran out |
| Dag.HandleEdges | src/dag.c:427-439 | the loop over the edges of one dequeued id does so without touching what was dequeued, and its guard never fires |
| Dag.SeedPending | src/dag.c:458-465 | every countdown starts at the number of predecessors |
| Dag.RootsOf | src/dag.c:472-475 | the root loop visits exactly the added nodes without predecessors |
| DagGraph.OrderedHasNoCycle | src/dag.c:395-441 | a graph with a topological order has no cycle |
| DagGraph.StuckHasCycle | src/dag.c:395-441 | a non-empty set of nodes that each have a predecessor in it contains a cycle |
| DagEngine.RunsOnceAfterPredecessors | src/dag.c:134-164 | in every reachable state a node's function was started at most once, and only after the functions of all its predecessors returned and their futures were ready |
| DagEngine.QuietMeansComplete | src/dag.c:422-481 | without a release failure, when the root loop has returned and nothing is in flight, every added node was released, ran exactly once and is finished |
| DagEngine.DrainedMeansDone | src/dag_internal.h:100-106 | after submit returned, drained means nothing queued, running or being released, every initialised future ready, and no joiner left asleep unsignalled |
| DagEngine.DrainedForever | src/dag_internal.h:85-106 | from then on nothing but the joiner ever changes |
| DagEngine.JoinerIsWokenAndTold | src/dag.c:170-191 | the joiner never sleeps unsignalled on a drained DAG while no signal is under way, and returns OK or the first failure recorded |
| DagEngine.FailuresStick | src/dag.c:46-62 | recorded failures are never dropped or reordered |
| DagEngine.DrainLostIffRootsLeft | src/dag.c:472-481 | a reachable drained state can be followed by one that is not drained if and only if the root loop will still reach a root |
| DagEngine.DrainCanBeLost | src/dag.c:472-481 | a run on three nodes reaches such a state |
| DagEngine.InvStep | src/dag.c:46-191 | every step of submitter, runners and joiner keeps the engine invariant: `in_flight` counts wrappers and releases in progress, `released_total` the booked releases, each countdown the predecessors still to decrement it |
| Pool.ExactlyOnePlace | src/thread_pool.c:1019-1160 | in every reachable state every task is found once at its place (ring cell, deque, lanes, a worker's hand, running, over, or with its submitter) and nowhere else |
| Pool.QueueLenCountsPending | src/thread_pool.c:2204-2232 | `queue_len` is the number of queued uncancelled tasks plus the submitters in the middle of publishing |
| Pool.ExitMeansEmpty | src/thread_pool.c:1019-1021 | with no submitter in flight, the four comparisons of the shutdown exit test together imply that ring, deques and lanes are empty at that moment |
| PoolExit.ExitFinalIff | src/thread_pool.c:1014-1039 | after a worker took the shutdown exit, ring, deques and lanes stay empty in every continuation if and only if the ring is empty then and no submitter is between the shutdown check and its claim |
| PoolExit.ExitLeavesNothing | src/thread_pool.c:1019-1037 | if no submitter is in flight at the exit, then from there on nothing is queued and every task is finished, cancelled or refused, or running on its worker; and none is running once all workers left |
| PoolExit.LeftInRing | src/thread_pool.c:2791-2856 | a task in the ring when the last worker has left stays at its position for good |
| PoolExit.AcceptedAndNeverRun | src/thread_pool.c:2202-2246 | for every ring size, a run in which the only worker leaves and a submitter that had passed the shutdown check then publishes its task |
| PoolExit.LateStep | src/thread_pool.c:1019-1021 | every step keeps: a worker between the two halves of its exit test sees the lanes empty, and whoever passed the test did so after shutdown |
| Pool.CancelExcludesRun | src/thread_pool.c:1142-1160 | no task is both started and cancelled with OK, each happens at most once, and a ring task is added to `queue_len` once and subtracted once as soon as it was started or cancelled, not before |
| Pool.CancelOrRunForGood | src/thread_pool.c:2992-3018 | once a cancel returned OK the task is never started, and once it was started no cancel returns OK |
| Pool.IndexFits | src/thread_pool.c:365-374 | in every reachable state the indexed tasks are fewer than ring slots plus deque slots |
| PoolIndex.InvStep | src/thread_pool.c:1142-1145 | every step of the pool, with the table edit its thread makes, keeps the table sound and its map exactly the indexed tasks with their addresses |
| PoolIndex.LookupFindsIndexed | src/thread_pool.c:2997-2999 | in every reachable state a lookup by id answers the task exactly while the pool has it indexed, and NULL otherwise |
| PoolIndex.InsertionFindsSlot | src/thread_pool.c:1743-1747 | in every reachable state of pool and table the table has a reusable slot |
| PoolIndex.NewIndex | src/thread_pool.c:365-374 | the index created with a pool is an empty table that covers the ring and all deques: an initial state |
| PoolIndex.IndexTask | src/thread_pool.c:1724-1747 | in any reachable state the insertion of a ring submission never falls through: the task is indexed afterwards and the table is that of the next state |
| Pool.InvStep | src/thread_pool.c:839-1320 | every step of submitters, workers and cancellers keeps the pool invariant |
| Wakeup.WatchLostIff | src/thread_pool.c:1014-1133 | in every reachable state, a step takes away the last thing that would still bring a living worker to a ready ring head or lane entry (a token, a poster under way, a worker still to look) if and only if it is a spurious failure of a batch claim while nobody else watches the ring, the exit of the last worker before a published head is tallied, or a publication at the head after that exit |
| Wakeup.WatchRegainedIff | src/thread_pool.c:1014-1133 | an unwatched ring head is watched again exactly by a new token or poster, a successful steal or a worker that sees shutdown before it sleeps, and never once the last worker has left |
| Wakeup.UnwatchedIffLost | src/thread_pool.c:1014-1133 | in every reachable state the ring head is ready and unwatched if and only if a losing step happened and no regaining step since |
| Wakeup.NoLostWakeup | src/thread_pool.c:1041-1133 | with every worker in sem_wait, no token and no submitter between publishing and posting, the pool is not shut down, no deque entry is left, and a published ring head or lane entry is left if and only if a losing step happened and no regaining step since |
| Wakeup.SpuriousFailureStrands | src/thread_pool.c:1911-1914 | a run in which one spurious failure of the weak compare-and-swap leaves a published task behind sleeping workers |
| Wakeup.TokensCoverBlocked | src/thread_pool.c:1118-1126 | after shutdown there are always at least as many tokens as workers in sem_wait |
| Wakeup.NoWaitAfterShutdown | src/thread_pool.c:1115-1130 | a worker that is awake after shutdown never waits on the semaphore again |
| Wakeup.LaneStep | src/thread_pool.c:1109-1133 | skipping the lanes because the ring has work is safe: whoever watches the ring watches the lanes |
| Wakeup.InvStep | src/thread_pool.c:856-1133 | every step keeps the invariant: who holds the lock, which deques are empty, what the exit test has established, `ring_count` against publications and tallies, tokens after shutdown |
| Owners.OwnerForgottenIff | src/thread_pool.c:755-771 | in every reachable state, a ready coroutine loses its wake-up exactly when another worker takes the last token while the owner will not look at its FIFO before sleeping |
| Owners.OwnerRemindedIff | src/thread_pool.c:856-1130 | a forgotten owner is reminded exactly by a new token, poster or pusher, or by finding a task or shutdown before it sleeps |
| Owners.UntendedIffForgotten | src/thread_pool.c:755-771 | in every reachable state the ready coroutines of a worker wait for nobody if and only if it was forgotten and not reminded since |
| Owners.ReadyLeftIff | src/thread_pool.c:856-870 | with all workers asleep and no wake-up coming, a worker has a ready coroutine left if and only if it was forgotten and not reminded since |
| Owners.StrandsIffShared | src/thread_pool.c:771-771 | for every number of workers n, some run leaves a ready coroutine behind sleeping workers if and only if n is at least 2 |
| Capacity.CapacityBound | src/thread_pool.c:2127-2286 | over the ring, spill, lane and blocking paths P submitters push `queue_len` to at most capacity + P - 1 while shutdown is not set, and to at most capacity + 2P - 1 ever |
| Capacity.PlainBoundReached | src/thread_pool.c:2244-2286 | for every capacity and P there is a run without shutdown that ends with `queue_len` at capacity + P - 1 |
| Capacity.SingleSubmitterWithin | src/thread_pool.c:2244-2260 | a single submitter stays within the capacity while shutdown is not set, and within capacity + 1 ever |
| Capacity.OverrunIffShutdown | src/thread_pool.c:2127-2142 | for every capacity and P, some run exceeds capacity + P - 1 with that value of the shutdown flag if and only if the flag is set |
| Capacity.ShutdownOverruns | src/thread_pool.c:2133-2142 | for every capacity and P there is a run in which all P are let through a full queue, are told OK, and `queue_len` reaches capacity + 2P - 1 |
| Sizing.NextPow2 | src/thread_pool.c:168-179 | the result is the least power of two above the argument, so at least 2 for every bounded pool |
| Sizing.CommentHoldsIff | src/thread_pool.c:168-179 | the result is the least power of two not below the argument if and only if the argument is not a power of two |
| Sizing.LeastIsLeast | src/thread_pool.c:168-179 | no smaller power of two would do, for either reading |
| Sizing.MaskWraps | src/thread_pool.c:359-359 | masking with size - 1 visits the cells in order and wraps at the size |
| Sizing.CancelCapacity | src/thread_pool.c:365-374 | the doubling loop yields the least power of two that covers the ring and all deques |
| CancelIndex.Index.Insert | src/thread_pool.c:1724-1747 | an id not indexed yet is added to the map unless every slot is taken; nothing else changes |
| CancelIndex.Index.Remove | src/thread_pool.c:1765-1789 | the id leaves the map if it was there; nothing else changes, also with no EMPTY slot left |
| CancelIndex.Index.Find | src/thread_pool.c:1794-1814 | for every id but 0 the answer is the map's |
| CancelIndex.Index.Claim | src/thread_pool.c:1819-1845 | succeeds exactly for indexed ids, and takes the id out |
| CancelIndex.Index.Seek | src/thread_pool.c:1801-1813 | the bounded probe finds the key, or no entry carries it on the way to an EMPTY slot or in a whole round |
| CancelIndex.Index.SeekFree | src/thread_pool.c:1731-1743 | the first reusable slot of the probe sequence, or every slot is taken |
| CancelIndex.Index.constructor | src/thread_pool.c:374-374 | a new index is the empty map |
| CancelIndex.AnswersAsMapIff | src/thread_pool.c:1794-1814 | for every capacity, lookup agrees with the map in every table that insertions, removals and claims can produce if and only if the id is not 0 |
| CancelIndex.LookupFrom | src/thread_pool.c:1801-1813 | probing from any passed distance answers as the map does |
| CancelIndex.ZeroFindsLeftover | src/thread_pool.c:1715-1717 | for every capacity, after one insertion and one removal of a multiple of it nothing is indexed, and id 0 finds the removed task |
| CancelIndex.TablesSound | src/thread_pool.c:1709-1845 | in every table that arises, every indexed id is reachable from its home slot |
| CancelIndex.AbsentAfterProbe | src/thread_pool.c:1754-1764 | stopping at an EMPTY slot or after a whole round is conclusive |
| CancelIndex.OccupyPlaced | src/thread_pool.c:1734-1740 | taking the first reusable slot keeps every entry reachable |
| CancelIndex.TombstonePlaced | src/thread_pool.c:1758-1764 | a tombstone, unlike an EMPTY mark, keeps every other entry reachable |
| CancelIndex.FullIffNoFreeSlot | src/thread_pool.c:1743-1747 | the index holds fewer ids than slots if and only if some slot is reusable |
| WorkDeque.Deques.Push | src/thread_pool.c:1627-1640 | accepted exactly below capacity; then the task is the newest of that deque, and `len` and `deque_total` follow |
| WorkDeque.Deques.Pop | src/thread_pool.c:1642-1691 | returns and removes the newest task, or nothing exactly if the deque is empty |
| WorkDeque.Deques.Steal | src/thread_pool.c:1693-1709 | returns and removes the oldest task, or nothing exactly if the deque is empty |
| WorkDeque.ScanVisitsEachOnce | src/thread_pool.c:1098-1105 | the full scan visits every other worker exactly once |
| WorkDeque.StealFromAny | src/thread_pool.c:1081-1107 | steals the oldest task of the first non-empty victim in scan order, or all others are empty |
| WorkDeque.Refill | src/thread_pool.c:1054-1079 | a ring batch passes through the empty own deque, no push is refused, and the newest of the batch is taken |
| WorkDeque.FromDeques | src/thread_pool.c:1050-1107 | own deque, ring, steal: which task is taken and what stays, and nothing is taken exactly if all are empty |
| WorkDeque.Pass | src/thread_pool.c:1041-1111 | with nobody submitting, a pass returns nothing if and only if lanes, ring and all deques are empty; urgent lanes come first, other lanes last |
| Lanes.LaneSet.Enqueue | src/thread_pool.c:1941-1954 | the task becomes the newest of the queue; buckets, tails and bits still agree with it |
| Lanes.LaneSet.Dequeue | src/thread_pool.c:1964-1989 | returns and removes the task of smallest priority, oldest first, unless its priority exceeds the bound; then nothing changes |
| Lanes.LaneSet.HasPriority | src/thread_pool.c:1994-2007 | true if and only if some queued task has a priority within the bound |
| Lanes.LaneSet.Lowest | src/thread_pool.c:1969-1973 | the bitmap and count-trailing-zeros find the lowest non-empty bucket |
| Lanes.LaneSet.Cancel | src/thread_pool.c:3055-3093 | takes out exactly the foremost match, from the middle of its bucket if need be, or there is no match |
| Lanes.LaneSet.Seek | src/thread_pool.c:3056-3090 | the walk along a bucket finds its first match and the node before it |
| Lanes.LaneSet.CancelAll | src/thread_pool.c:3137-3157 | every queued task goes and is counted exactly once |
| Lanes.LaneSet.Hang | src/thread_pool.c:1944-1952 | appending behind the tail keeps the links, the tail and the bit of the bucket, and touches no other bucket |
| Lanes.LaneSet.PopHead | src/thread_pool.c:1976-1983 | taking the head keeps them too |
| Lanes.LaneSet.Unhook | src/thread_pool.c:3060-3073 | so does taking out any node of the bucket |
| Lanes.FirstHitIsForemost | src/thread_pool.c:3055-3059 | the first match of the lowest bucket that has one goes before all other matches |
| Lanes.ArrivalOf | src/thread_pool.c:1941-1950 | buckets keep the order of arrival |
| Bits.Ctz | src/thread_pool.c:1972-1972 | the number of the lowest set bit |
| Bits.OrSetsOneBit | src/thread_pool.c:1951-1952 | or-ing in a shifted one sets that bit and no other |
| Bits.AndNotClearsOneBit | src/thread_pool.c:1980-1981 | and-ing with its complement clears that bit and no other |
| TimerHeap.Timers.Push | src/timer.c:58-74 | fails exactly when the heap is full and cannot grow, changing nothing; otherwise exactly the entry is added and heap order holds |
| TimerHeap.Timers.Grow | src/timer.c:60-69 | 64 slots first, then twice as many, with all entries kept |
| TimerHeap.Timers.Peek | src/timer.c:77-84 | the least deadline, if there is an entry |
| TimerHeap.Timers.PopDue | src/timer.c:89-101 | takes out exactly one entry of least deadline; the capacity stays |
| TimerHeap.Timers.RemoveByTask | src/timer.c:107-125 | takes out exactly one entry of that task if there is one, else changes nothing |
| TimerHeap.Timers.RemoveAt | src/timer.c:110-117 | takes out exactly the entry of that slot and restores heap order |
| TimerHeap.SiftUp | src/timer.c:14-27 | the loop computes the sift-up of the array |
| TimerHeap.SiftDown | src/timer.c:31-51 | the loop computes the sift-down of the array |
| TimerHeap.SiftUpOrders | src/timer.c:11-27 | sift-up repairs one broken bond to a parent and permutes the entries |
| TimerHeap.SiftDownOrders | src/timer.c:29-51 | sift-down leaves at most the bond above the start to repair and permutes the entries |
| TimerHeap.RemoveOrders | src/timer.c:102-119 | overwrite by the last entry, sift down, sift up: heap order holds and exactly one entry is gone, for every slot |
| TimerHeap.LastSlotStays | src/timer.c:110-115 | removing the last slot leaves the array alone although sift-up starts at the slot past the end |
| TimerHeap.RootIsLeast | src/timer.c:11-13 | the root has the least deadline |
| TimerHeap.TakeDue | src/thread_pool.c:729-751 | one section of the drain: nothing due, or the least entry taken, or, without a ready node, pushed back with no need to grow |
| TimerHeap.DrainDue | src/thread_pool.c:726-776 | the drained entries are in order of deadline, all due, together with the rest a permutation of the heap; nothing due stays unless nodes ran out |
| Sleepers.ParkedInOnePlace | src/thread_pool.c:730-776 | a parked coroutine sits once in the timer heap or once in its owner's ready FIFO, or in the hand of a canceller that holds the pool lock |
| Sleepers.ResumedByOwner | src/thread_pool.c:856-925 | a coroutine is taken and resumed only by the worker that owns it |
| Sleepers.NoExitWhileParked | src/thread_pool.c:1014-1039 | a worker that took the shutdown exit owns no unfinished coroutine |
| Sleepers.SplitStrands | src/thread_pool.c:755-771 | if pop and push were two timer_lock sections, a run strands a coroutine with an exited worker |
| Sleepers.InvStep | src/thread_pool.c:669-1039 | every step of workers, timer thread and canceller keeps the hand-over invariant |
| TaskGroup.PendingCountsOpen | src/task_group.c:128-138 | `pending` is the number of submitted tasks neither completed nor cancelled |
| TaskGroup.DecrementFindsOne | src/task_group.c:183-195 | whoever decrements `pending` finds it positive |
| TaskGroup.CtxFreedOnce | src/task_group.c:183-344 | each wrapper context is freed at most once, exactly once when its task is over |
| TaskGroup.FreedAfterLastWrapper | src/task_group.c:225-249 | when destroy releases the group no wrapper is left that could still lock or decrement it |
| TaskGroup.StrandedOnlyByCancel | src/task_group.c:239-455 | destroy never sleeps on with nothing pending; a waiter does only after a cancel made the count zero |
| TaskGroup.StrandedByIff | src/task_group.c:183-195 | in every reachable state a step leaves the waiter asleep unsignalled with nothing pending if and only if it cancels the last open task under it |
| TaskGroup.RousedByIff | src/task_group.c:441-452 | a stranded waiter is roused exactly by a timeout, a wake-up that tests the count again, or a new task being counted |
| TaskGroup.LastDecrementWakesIff | src/task_group.c:183-322 | in every reachable state a waiter is stranded if and only if a cancel made the last decrement under it and no step has roused it since |
| TaskGroup.CancelStrandsWaiter | src/task_group.c:183-211 | a run in which the only task is cancelled and the waiter sleeps on |
| TaskGroup.InvStep | src/task_group.c:128-344 | every step keeps the accounting invariant |

## Left out

- Context switching, signals, guard pages and stacks of coroutines: resuming one is a single step with any outcome.
- Completion futures of coroutines: the ready-FIFO path does not resolve them, so no claim is made.
- Resizing a pool, lane-only degradation and recovery of crashed workers: mostly allocation failure and thread joins; shrinking also subtracts cancelled tasks from `queue_len` twice.
- Pools whose registration failed because the registry was full (id 0): the cache ownership invariant needs distinct ids.
- Weak memory orderings and counter wrap-around.
- Interleaved push, pop and steal on one deque: every caller in the worker loop holds the pool lock; the branches of `deque_pop` and `deque_steal` that lose a race are therefore not modelled.
- `loom_pool_cancel` by argument on the cancel index (a scan with a hash filter); its lane part is `Lanes.LaneSet.Cancel`, its timer part a step of `Sleepers`.
- `loom_dag_destroy`, node futures' waiters and status queries: they read what the drain results are about.
- Several joiners of one DAG: `done_cv` is signalled, not broadcast.
- `src/pipeline.c`, `src/numa.c`, `src/metrics.c`, `src/metrics_shm.c`, `src/runtime.c`: a mutex around a list, system files, counters and delegation.
- Clocks and timed waits: a timeout is a possible outcome of a wait.
- Sleepers.ParkedInOnePlace: assumes that the allocation of ready nodes and heap slots succeeds; the re-arming path is `TimerHeap.TakeDue`.
- Bits.Ctz: works on the 64 bits of a word; the or and and-not lemmas tie single bits to the machine operations.
- WorkDeque.Pass: the ring is the run of published tasks at its head, and nobody submits during the pass; interference is the subject of `Pool` and `Wakeup`.
- Pool.ExactlyOnePlace: a batch moves from the ring to a deque one task at a time within one locked stretch, which only the lock holder can see.
- Wakeup.InvStep: the `queue_len` comparison of the exit test stands for what it implies here, empty lanes (`Pool.QueueLenCountsPending`), so the model allows more exits than the code; the reads of timer heap and ready FIFO are one step, which `Sleepers` splits.
