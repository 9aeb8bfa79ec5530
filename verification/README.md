# Verified model of the RocketMQ C++ client

This project models the concurrent protocols and the loop-heavy arithmetic of the RocketMQ client library in Dafny and
proves what they keep. `dafny verify dfyconfig.toml` checks all of it.

Protocols are transition systems: every mutex section, atomic operation, RPC completion and timer is one step, steps of
any number of threads interleave freely, and the main results hold in every reachable state of every finite run
(`Execution`). The network is an environment that completes each call at most once with any outcome. Beside each
transition system stands the imperative code of its critical sections and loops, proved equal to the step functions.

| file | part of the client |
|---|---|
| `RouteCache.dfy` | double-checked route cache with single-flight lookup (`ClientImpl`) |
| `Pipeline.dfy` | receive cycle, dispatch, consume tasks and broadcast drainers of one process queue, interleaved |
| `Conservation.dfy`, `CycleTiming.dfy`, `BroadcastDrain.dfy`, `DrainOverlap.dfy` | what every run of the pipeline keeps: counters, back-pressure, idle clock, order |
| `ProcessQueues.dfy`, `ConsumeTasks.dfy` | one process queue; the consume/ack/nack machine of one batch |
| `AssignmentSync.dfy` | reconciling the process-queue table with an assignment (`PushConsumerImpl`) |
| `SyncRuns.dfy` | overlapping synchronisations, step by step: how many receive cycles an object gets |
| `PublishInfo.dfy`, `RouteData.dfy`, `Ordering.dfy` | queue choice over a wrapping counter; canonical order of routes; message-group stickiness |
| `SendRetry.dfy` | bounded send retries (`RetrySendCallback`, `ProducerImpl`) |
| `Scheduler.dfy` | timer tasks, weak references, re-arming and cancel (`SchedulerImpl`) |
| `RateLimit.dfy` | quota split over slots, borrowing and refill (`RateLimiter`) |
| `Hex.dfy`, `UniqueId.dfy`, `Text.dfy`, `Naming.dfy` | hexadecimal text, unique ids, name-server addresses |
| `Base.dfy`, `Modular.dfy`, `Sums.dfy` | shared definitions |

Several properties one would expect of this code hold only under a condition. Each has its exact condition as an
if-and-only-if:

- `takeMessageQueues` looks at every partition exactly if its 32-bit counter does not wrap inside the scan or the list
  length divides 2^32 (`PublishInfo.CompleteIff`).
- Routes built from the same partitions are equal exactly if partitions with equal keys have equal permissions
  (`RouteData.RouteEqIff`); they are identical exactly if such partitions are (`Ordering.SortUniqueIff`).
- A live process queue never expires exactly if receive timeout, retry delay and processing slack fit into 120 seconds,
  together with a further io timeout where a broker may send a broadcasting queue a negative offset, which makes it ask
  for its offset again (`CycleTiming.LiveNeverExpiresIff`).
- Every process-queue object keeps to one receive cycle exactly if at most one synchronisation of a topic is open at a
  time, assignments are proper and cycles go on only while their object is in the table (`SyncRuns.OneCycleIff`); a queue
  with a cycle never expires exactly if, besides, no cycle is started on a queue whose clock is already running
  (`CycleTiming.NeverExpiresIff`).
- Broadcast listener calls stay apart and in order exactly if the queue has at most one receive cycle
  (`DrainOverlap.OrderedIff`).
- An immediate second `syncProcessQueue` starts nothing exactly if every assigned queue with an address belongs to the
  topic being synchronised (`AssignmentSync.SecondSyncIff`).
- `acquire(n)` returns more than `n` exactly if the current slot is short and a past slot is filled beyond the demand,
  because the `break` leaves the inner loop only (`RateLimit.OvershootIff`); the blocking `acquire` keeps the books
  exactly if the slot it re-reads is not empty (`RateLimit.WaitedIff`).
- A cancelled timer task can begin again exactly if, with one worker, the worker had already locked it; with two or more
  workers, a periodic task can begin again exactly as long as anybody still shares it (`Scheduler.OneWorkerIff`,
  `Scheduler.OneShotIff`, `Scheduler.PeriodicIff`).
- Generated ids are distinct exactly if no second draws more than 2^32 of them (`UniqueId.IdsDistinctIff`).
- A printed IPv4 address list reads back exactly if every port fits 16 bits (`Naming.RoundTripIff`), a domain exactly if
  it also holds no comma (`Naming.DomainRoundTripIff`).

## Model

| member | source | states |
|---|---|---|
| `RouteCache.InvAlways` | src/main/cpp/rocketmq/ClientImpl.cpp:109-156 | in every reachable state of any interleaving of lookups, completions and refreshes: the route table holds only valid routes, the inflight mutex has one holder, entries belong to unfinished queries, and every callback is in one place |
| `RouteCache.SingleFlight` | src/main/cpp/rocketmq/ClientImpl.cpp:109-156 | at most one `getRouteFor`-started query per topic is unfinished, and a topic has an inflight entry if and only if it has such a query or its query was given up for lack of a name-server address |
| `RouteCache.PendingEntryExists` | src/main/cpp/rocketmq/ClientImpl.cpp:283-305 | the assertion at line 295 holds whenever it is reached, and the entry found contains the completing call itself |
| `RouteCache.ExactlyOnePlace` | src/main/cpp/rocketmq/ClientImpl.cpp:109-156 | each callback is in exactly one of: its caller's hand, its own topic's list, one taken batch, or run; never twice in any of them, and it is run for its own topic |
| `RouteCache.AllCallbacksRun` | src/main/cpp/rocketmq/ClientImpl.cpp:283-305 | when all activities are done and no query was given up, every callback has run |
| `RouteCache.CacheOnlyImproves` | src/main/cpp/rocketmq/ClientImpl.cpp:329-358 | a cached route is never removed nor replaced by an error, null or empty route, between any two states of a run |
| `RouteCache.DeliveriesAreAnswers` | src/main/cpp/rocketmq/ClientImpl.cpp:109-156 | every callback ever run, from the cache or by a completion, was given the outcome of a completed query for the topic that its own call asked for |
| `RouteCache.RepliesAreAnswers` | src/main/cpp/rocketmq/ClientImpl.cpp:200-231 | every answer an activity carries, a cached route it saw or a reply it was told, is the outcome of a completed query for its topic |
| `RouteCache.CacheHoldsAnswers` | src/main/cpp/rocketmq/ClientImpl.cpp:329-358 | every cached route is the outcome of a completed query for the topic it is cached under |
| `RouteCache.RefreshStores` | src/main/cpp/rocketmq/ClientImpl.cpp:329-358 | in every run, a completion with a good route makes the cache agree with it, position by position, in topic, broker name, id and permission: the route itself is stored if the topic was missing or any of these differed, and the cached one stays if none did; an error, null or empty route changes nothing, other topics keep their entries, and no other step touches the cache |
| `RouteCache.CacheAnswersCalls` | src/main/cpp/rocketmq/ClientImpl.cpp:109-156 | in every run, a call whose topic is cached is answered with the cached route, found by the first or the second look |
| `RouteCache.ServedInOrder` | src/main/cpp/rocketmq/ClientImpl.cpp:125-147 | in every run, waiting callbacks stay in the order of their coming: a call that saw no route comes last and asks exactly if nobody has; a completion takes all and runs the first each time with its own answer; no other step touches them |
| `RouteCache.QueriesGoOut` | src/main/cpp/rocketmq/ClientImpl.cpp:200-231 | in every run, a query goes out exactly if a name server is known, and an error is passed on without a route |
| `RouteCache.RefreshesAreCached` | src/main/cpp/rocketmq/ClientImpl.cpp:233-255 | in every run, only topics in the cache are refreshed |
| `RouteCache.RouteTables.JoinInflight` | src/main/cpp/rocketmq/ClientImpl.cpp:125-147 | after a second miss the callback joins the topic's list; the caller queries if and only if it opened the list |
| `RouteCache.RouteTables.UpdateRouteCache` | src/main/cpp/rocketmq/ClientImpl.cpp:329-358 | afterwards the table agrees with a good route in topic, broker name, id and permission of every position, holds that very route if the topic was missing or any of these differed, and is otherwise as before; it is the step of the transition system |
| `RouteCache.RouteTables.TakePendingRequests` | src/main/cpp/rocketmq/ClientImpl.cpp:291-299 | in any state satisfying the invariant the assertion holds, the section is the `TakePending` step, and the callbacks taken are those of distinct calls for the topic, the completing one among them |
| `ConsumeTasks.InvAlways` | src/main/cpp/rocketmq/ConsumeTask.cpp:125-210 | the invariant tying pending messages, next step and event history, over all listener results, RPC outcomes and retry timings |
| `ConsumeTasks.TaskIsOrderly` | src/main/cpp/rocketmq/ConsumeTask.cpp:72-210 | popped messages plus remaining ones are the batch; acks go out only for the head after success on it, nacks only after failure in a task that is not fifo; a pop follows only the successful end of an ack or nack; `Forward` is never reached; a fifo task counts exactly the failures of its head |
| `ConsumeTasks.TaskAssertionsHold` | src/main/cpp/rocketmq/ConsumeTask.cpp:43-104 | the assertions of `pop`, `onNack` and the ack step hold whenever they are reached |
| `ConsumeTasks.CompletionEffect` | src/main/cpp/rocketmq/ConsumeTask.cpp:72-104 | in every run, the end of an ack or nack leaves the messages alone: success starts the pop of the head, failure parks the task with the same ack or nack as its next step |
| `ConsumeTasks.PopsOnlySettled` | src/main/cpp/rocketmq/ConsumeTask.cpp:43-104 | in every run, messages leave the task only by a pop, one at a time from the head, right after the successful end of the ack or nack for that head; a parked task resumes with everything it had |
| `ConsumeTasks.FailedReplyRepeats` | src/main/cpp/rocketmq/ConsumeTask.cpp:81-103 | in every run, the next event after a failed ack or nack is the same ack or nack for the same message |
| `ConsumeTasks.ProcessEffect` | src/main/cpp/rocketmq/ConsumeTask.cpp:125-210 | in every run, one `process()`: an empty task ends; success is acked, failure of a fifo head is parked, counted and consumed again, other failures are nacked; a pending ack or nack is sent without asking the listener |
| `ConsumeTasks.PoppedIsPrefix` | src/main/cpp/rocketmq/ConsumeTask.cpp:43-53 | in an orderly history the popped messages are a prefix of the batch, in order |
| `ConsumeTasks.ConsumeTask.constructor` | src/main/cpp/rocketmq/ConsumeTask.cpp:37-41 | a new task holds the whole batch and is fifo if it has more than one message |
| `ConsumeTasks.ConsumeTask.Pop` | src/main/cpp/rocketmq/ConsumeTask.cpp:43-53 | releases and removes exactly the head; with the process queue gone nothing changes |
| `ConsumeTasks.ConsumeTask.RunProcess` | src/main/cpp/rocketmq/ConsumeTask.cpp:125-210 | one `process()` is the `Process` step of the machine |
| `ConsumeTasks.ConsumeTask.RunOnAck` | src/main/cpp/rocketmq/ConsumeTask.cpp:72-86 | a successful ack is the steps of a pop; a failed one keeps the messages and parks the task with the ack as its next step; with the process queue gone the head stays and is consumed again |
| `ConsumeTasks.ConsumeTask.RunOnNack` | src/main/cpp/rocketmq/ConsumeTask.cpp:88-104 | the same for nack, which is reached only by a task that is not fifo and has messages |
| `ProcessQueues.ProcessQueue.AccountCache` | src/main/cpp/rocketmq/ProcessQueueImpl.cpp:139-153 | the counters grow by the number and the bytes of the batch, in unsigned arithmetic |
| `ProcessQueues.ProcessQueue.Release` | src/main/cpp/rocketmq/ProcessQueueImpl.cpp:155-167 | the counters shrink by one message and its bytes, in unsigned arithmetic |
| `ProcessQueues.ProcessQueue.CheckThrottle` | src/main/cpp/rocketmq/ProcessQueueImpl.cpp:75-101 | throttles if and only if the quantity reaches its threshold, or a memory threshold is set and reached |
| `ProcessQueues.ProcessQueue.EnqueueBroadcastMessages` | src/main/cpp/rocketmq/include/ProcessQueueImpl.h:108-113 | the deque is extended by the messages in order |
| `ProcessQueues.ProcessQueue.DequeBroadcastMessage` | src/main/cpp/rocketmq/include/ProcessQueueImpl.h:115-124 | takes exactly the front, or nothing if and only if the deque is empty |
| `Pipeline.CheckDecides` | src/main/cpp/rocketmq/AsyncReceiveMessageCallback.cpp:67-83 | the two read steps of the throttle check lead to a retry exactly if the quantity has reached its threshold, or a memory threshold is set and reached, as `shouldThrottle` decides |
| `Pipeline.ReceiveEffect` | src/main/cpp/rocketmq/AsyncReceiveMessageCallback.cpp:34-63 | in every run, the batch received is the one counted, message by message, and dispatched once all are counted |
| `Pipeline.DispatchEffect` | src/main/cpp/rocketmq/ConsumeMessageServiceImpl.cpp:52-92 | in every run, a FIFO listener gets the whole batch as one task or, when broadcasting, at the end of the deque; a standard listener one task for the first message and the rest to go; no other step makes a task, and tasks change by their own steps only |
| `Pipeline.DispatchesAll` | src/main/cpp/rocketmq/ConsumeMessageServiceImpl.cpp:88-91 | run by itself, the loop ends with one new task for each message of the batch, in order |
| `Pipeline.WakeEffect` | src/main/cpp/rocketmq/ConsumeMessageServiceImpl.cpp:68-76 | in every run, a broadcast task is made exactly if none is seen, and submitted exactly if its flag is down |
| `Pipeline.OffsetEffect` | src/main/cpp/rocketmq/PushConsumerImpl.cpp:352-386 | in every run, the offset is what the last broadcasting reply or offset query said; nothing else changes it |
| `Pipeline.IdleClockEffect` | src/main/cpp/rocketmq/AsyncReceiveMessageCallback.cpp:67-119 | in every run, the idle clock is set by sending a receive and by throttling and by nothing else; a throttled cycle waits one second |
| `Conservation.ConservationHolds` | src/main/cpp/rocketmq/ConsumeMessageServiceImpl.cpp:52-92 | in every reachable state the two counters equal, modulo their width, the number and bytes of messages counted and not released, wherever they are: being dispatched, in tasks, parked, in the deque, in a drainer's hand |
| `Conservation.CountersNeverWrap` | src/main/cpp/rocketmq/ProcessQueueImpl.cpp:139-167 | while the holdings fit the counters, every step changes the counters by exactly what was counted or released: no underflow, no overflow |
| `Conservation.QuantityBackPressure` | src/main/cpp/rocketmq/AsyncReceiveMessageCallback.cpp:52-119 | with `n` receive cycles and brokers honouring the batch size the quantity is exact and at most threshold - 1 + n batches; with one cycle, threshold - 1 + one batch |
| `Conservation.MemoryBackPressure` | src/main/cpp/rocketmq/ProcessQueueImpl.cpp:75-101 | with a memory threshold and one cycle, cached bytes stay below the threshold plus one batch; with `n` cycles, plus n batches |
| `Conservation.Balance` | src/main/cpp/rocketmq/BroadcastTask.cpp:43-65 | handing messages from cycle to task, deque and drainer changes no total: only counting and releasing steps do |
| `CycleTiming.LiveGap` | src/main/cpp/rocketmq/AsyncReceiveMessageCallback.cpp:34-119 | in every run the idle clock of a queue is at most the longest gap old while a cycle is going that was started with the clock or has sent a receive, the wait for the first offset included |
| `CycleTiming.LiveNeverExpiresIff` | src/main/cpp/rocketmq/ProcessQueueImpl.cpp:58-65 | a queue with such a cycle never satisfies `expired()` in any run if and only if long polling, io timeout, retry delay and slack fit 120 s, together with a second io timeout if brokers can make a broadcasting queue ask for its offset again |
| `CycleTiming.NeverExpiresIff` | src/main/cpp/rocketmq/PushConsumerImpl.cpp:269-290 | a queue with any cycle that has not died never expires, in any run, if and only if cycles are started only on queues whose clock has just been set and the longest gap fits 120 s |
| `CycleTiming.LateStartExpires` | src/main/cpp/rocketmq/PushConsumerImpl.cpp:318-319 | the failing run of a cycle started on a queue that has been idle too long |
| `CycleTiming.KnownOffsetsNeverExpireIff` | src/main/cpp/rocketmq/PushConsumerImpl.cpp:352-386 | when brokers never send a negative offset the second io timeout drops out, in either message model |
| `CycleTiming.SlowestQuery` | src/main/cpp/rocketmq/PushConsumerImpl.cpp:352-386 | a run of a broadcasting queue that asks for its first offset, fails a receive with a negative offset, and asks again, leaving the idle clock alone for the whole longest gap |
| `CycleTiming.GapAttained` | src/main/cpp/rocketmq/AsyncReceiveMessageCallback.cpp:52-103 | for every configuration some live queue attains the longest gap |
| `CycleTiming.DeadStaysIdle` | src/main/cpp/rocketmq/ProcessQueueImpl.cpp:121-137 | once all cycles of a queue have died only a new start sets the clock again, so the queue expires exactly 120 s after its last activity |
| `BroadcastDrain.OneDrainerPerTask` | src/main/cpp/rocketmq/BroadcastTask.cpp:40-72 | with any number of pool threads at most one is between the two compare-exchanges of a broadcast task, and the second one always finds the flag set |
| `BroadcastDrain.BroadcastFifo` | src/main/cpp/rocketmq/BroadcastTask.cpp:29-72 | with one broadcast task listener calls never overlap and the consumed messages are a prefix of the enqueued ones |
| `BroadcastDrain.OneCycleOneTask` | src/main/cpp/rocketmq/ConsumeMessageServiceImpl.cpp:65-78 | a queue with one receive cycle never gets a second broadcast task |
| `BroadcastDrain.DrainerEmptiesDeque` | src/main/cpp/rocketmq/BroadcastTask.cpp:29-72 | the steps of one undisturbed drainer: a set flag sends it away; otherwise it passes the whole deque to the listener in order, releases exactly that, and leaves the deque empty and the flag down |
| `DrainOverlap.OrderedIff` | src/main/cpp/rocketmq/ConsumeMessageServiceImpl.cpp:63-78 | over all runs with at most `n` receive cycles, listener calls for a queue never overlap and follow the order of enqueueing if and only if n is at most 1 or the configuration leaves drainers without messages |
| `DrainOverlap.TwoCyclesOverlap` | src/main/cpp/rocketmq/ConsumeMessageServiceImpl.cpp:68-77 | the failing run: two cycles both see no broadcast task, make one each, and two threads are in the listener at once |
| `BroadcastDrain.BroadcastTask.Process` | src/main/cpp/rocketmq/BroadcastTask.cpp:29-72 | one undisturbed thread passes on the whole deque in order and releases exactly that, as the steps of a drainer do; a set flag makes it do nothing |
| `AssignmentSync.SyncReconciles` | src/main/cpp/rocketmq/PushConsumerImpl.cpp:256-306 | an active sync leaves exactly the assigned queues for the topic and other topics untouched; an entry is kept, as the same object, exactly if it is assigned, of the topic and idle for at most 120 s; all others are fresh objects, and a receive is started for exactly the assigned queues with an address that were not kept |
| `AssignmentSync.SyncByClock` | src/main/cpp/rocketmq/PushConsumerImpl.cpp:281-297 | an assigned queue of the topic idle for more than 120 s gets a new object and, with an address, is started again; idle for less it keeps its object and is not started |
| `AssignmentSync.InactiveOnlyErases` | src/main/cpp/rocketmq/PushConsumerImpl.cpp:256-306 | a consumer that is shutting down erases the unassigned and the expired entries of the topic and starts nothing |
| `AssignmentSync.StartedInOrder` | src/main/cpp/rocketmq/PushConsumerImpl.cpp:292-306 | queues are started in the order of the assignment |
| `AssignmentSync.SyncStartsEachOnce` | src/main/cpp/rocketmq/PushConsumerImpl.cpp:292-306 | on a duplicate-free assignment with addresses, one receive is started for exactly the queues not kept |
| `AssignmentSync.SecondSyncIff` | src/main/cpp/rocketmq/PushConsumerImpl.cpp:256-306 | an immediate second call leaves the table as it is, and starts nothing if and only if every assigned queue with an address is of that topic |
| `AssignmentSync.StartedOnce` | src/main/cpp/rocketmq/PushConsumerImpl.cpp:292-306 | the queues started are the assigned ones with an address and no kept entry, each once if assigned once |
| `AssignmentSync.PushConsumer.GetOrCreateProcessQueue` | src/main/cpp/rocketmq/PushConsumerImpl.cpp:308-332 | an inactive consumer gets nothing; an active one the entry of the queue, which is created if missing |
| `AssignmentSync.PushConsumer.ReceiveMessage` | src/main/cpp/rocketmq/PushConsumerImpl.cpp:334-388 | reports success if and only if it started a receive |
| `AssignmentSync.PushConsumer.EraseStale` | src/main/cpp/rocketmq/PushConsumerImpl.cpp:266-291 | reports as kept exactly the entries of the topic that are assigned, hold an object and have been idle for at most 120 s, and erases exactly the other entries of the topic |
| `AssignmentSync.PushConsumer.SyncProcessQueue` | src/main/cpp/rocketmq/PushConsumerImpl.cpp:256-306 | the two passes over table and assignment have the effect the lemmas above are about |
| `SyncRuns.OneCycleIff` | src/main/cpp/rocketmq/PushConsumerImpl.cpp:256-332 | over all interleavings of the locked sections of any number of synchronisations with cycles that go on: no process-queue object is started twice or has two live cycles if and only if no call is ever open, or at most one call of a topic is open at a time, assignments name each queue once and only queues of their topic, and cycles go on only while their object is in the table |
| `SyncRuns.NeverStartedTwice` | src/main/cpp/rocketmq/PushConsumerImpl.cpp:266-306 | in every state of every such run all started objects are distinct and each has at most one live cycle |
| `SyncRuns.StartsAreNew` | src/main/cpp/rocketmq/PushConsumerImpl.cpp:292-332 | in such runs every start is that of an object created by the same step |
| `SyncRuns.OverlappingCalls` | src/main/cpp/rocketmq/PushConsumerImpl.cpp:266-306 | the failing run of two overlapping calls of one topic: purge, purge, start, start; both start object 0 |
| `SyncRuns.LateCycle` | src/main/cpp/rocketmq/AsyncReceiveMessageCallback.cpp:105-119 | the failing run of a cycle that goes on after its queue was erased and assigned again: the new object gets two cycles |
| `SyncRuns.RepeatedQueue` | src/main/cpp/rocketmq/PushConsumerImpl.cpp:292-306 | the failing run of an assignment that names a queue twice |
| `SyncRuns.UninterruptedIsSynced` | src/main/cpp/rocketmq/PushConsumerImpl.cpp:256-306 | the steps of one call that nothing interrupts are together the whole `syncProcessQueue` |
| `SyncRuns.CyclesFollowTable` | src/main/cpp/rocketmq/PushConsumerImpl.cpp:292-388 | a new cycle receives for the object its queue has in the table, a cycle that goes on for the one it has now, which is created if missing; no other step starts a cycle |
| `SyncRuns.ObjectsAlways` | src/main/cpp/rocketmq/PushConsumerImpl.cpp:308-332 | in every run within any limits the table holds objects only |
| `Ordering.SortUniqueIff` | src/main/cpp/client/include/TopicRouteData.h:36-39 | every permitted result of `std::sort` is the same if and only if incomparable elements are equal |
| `Ordering.SortIsCanonical` | src/main/cpp/client/include/TopicRouteData.h:36-39 | sorted permutations of one list whose order identifies its elements are equal |
| `Ordering.Sort` | src/main/cpp/client/include/TopicRouteData.h:38 | a sorted permutation exists for every strict weak order |
| `Ordering.StrLessIff` | src/main/cpp/client/include/Topic.h:44-54 | strings ascend: a proper prefix is less, otherwise the first character that differs decides |
| `RouteData.PartitionOrder` | src/main/cpp/client/include/Partition.h:66-80 | `operator<` of partitions is a strict weak order, as `std::sort` demands |
| `RouteData.PartitionIncomparable` | src/main/cpp/client/include/Partition.h:66-80 | two partitions are equivalent under it if and only if topic, broker name and id agree |
| `RouteData.PartitionLessIff` | src/main/cpp/client/include/Partition.h:66-80 | partitions ascend by namespace, topic, broker name and id |
| `RouteData.QueueOrder` | api/rocketmq/MQMessageQueue.h:90-100 | `operator<` of message queues is a strict weak order |
| `RouteData.QueueIncomparable` | api/rocketmq/MQMessageQueue.h:86-100 | two queues are equivalent under it if and only if their keys agree |
| `RouteData.QueueLessIff` | api/rocketmq/MQMessageQueue.h:90-100 | queues ascend by topic, broker and id |
| `RouteData.RouteIsCanonical` | src/main/cpp/client/include/TopicRouteData.h:36-51 | routes built from permuted partitions are equal by `operator==`, whatever the addresses, when partitions with the same key have the same permission |
| `RouteData.RouteEqIff` | src/main/cpp/client/include/TopicRouteData.h:36-51 | every route the sort may build from given partitions equals the one it has built, by `operator==`, if and only if partitions with the same key have the same permission |
| `RouteData.SortsAlign` | src/main/cpp/client/include/Partition.h:66-80 | any two sorts of the same partitions have the same keys in the same places |
| `RouteData.RouteIsIdentical` | src/main/cpp/client/include/TopicRouteData.h:36-39 | permuted partitions whose keys identify them give the very same sorted list, addresses included |
| `RouteData.RouteOrderMatters` | src/main/cpp/client/include/Partition.h:62-64 | the failing input: one key with two permissions |
| `RouteData.TopicRouteData.constructor` | src/main/cpp/client/include/TopicRouteData.h:36-39 | the stored partitions are a sort of the given ones |
| `PublishInfo.CoverageIff` | src/main/cpp/client/TopicPublishInfo.cpp:79-80 | the scan visits every position if and only if the counter does not wrap inside it or the length divides 2^32 |
| `PublishInfo.CompleteIff` | src/main/cpp/client/TopicPublishInfo.cpp:68-95 | for every partition list, isolated set and count the selection falls short only when every broker with an active partition is present, if and only if that condition holds |
| `PublishInfo.WrapMisses` | src/main/cpp/client/TopicPublishInfo.cpp:71-80 | after an uneven wrap a named position is never visited |
| `PublishInfo.TakenSound` | src/main/cpp/client/TopicPublishInfo.cpp:79-92 | from an empty list: at most count queues, none isolated, brokers pairwise distinct, all from the list, and every active broker seen is present unless the scan has stopped |
| `PublishInfo.TakenEarliest` | src/main/cpp/client/TopicPublishInfo.cpp:79-92 | the selection holds, of each broker, the active queue that the scan meets first, in the order of the scan |
| `PublishInfo.TopicPublishInfo.TakeMessageQueues` | src/main/cpp/client/TopicPublishInfo.cpp:68-95 | advances the 32-bit counter once and selects as the scan does; reports whether anything was selected |
| `PublishInfo.Scan` | src/main/cpp/client/TopicPublishInfo.cpp:79-92 | the loop with its wrapping index and early return computes the selection |
| `PublishInfo.TopicPublishInfo.UpdatePublishInfo` | src/main/cpp/client/TopicPublishInfo.cpp:97-122 | the list becomes the writable master partitions, or stays if there are none |
| `PublishInfo.TopicPublishInfo.GetMessageQueueList` | src/main/cpp/client/TopicPublishInfo.cpp:131-152 | a sort of the writable queues with a resolved address |
| `PublishInfo.OfferedQueuesCanonical` | src/main/cpp/client/TopicPublishInfo.cpp:131-152 | that list is unique when keys identify partitions |
| `PublishInfo.PublishedIs` | src/main/cpp/client/TopicPublishInfo.cpp:97-122 | what is published is exactly the route's partitions of masters with permission Write or ReadWrite if there is one, and the previous list otherwise |
| `PublishInfo.WritableInOrder` | src/main/cpp/client/TopicPublishInfo.cpp:97-122 | in the order of the route |
| `PublishInfo.OfferedIff` | src/main/cpp/client/TopicPublishInfo.cpp:131-152 | a queue is offered to a keyed send if and only if a listed partition with permission Write or ReadWrite and an address stands for it |
| `PublishInfo.OfferedInOrder` | src/main/cpp/client/TopicPublishInfo.cpp:131-152 | in the order of the list, before sorting |
| `PublishInfo.OnePartition` | src/main/cpp/client/TopicPublishInfo.cpp:97-152 | what the two lists make of each single partition, by permission, broker id and address |
| `PublishInfo.GroupQueueCycles` | src/main/cpp/rocketmq/ProducerImpl.cpp:220-223 | hash h below the list length chooses queue h, and hashes one list length apart choose the same queue |
| `PublishInfo.GroupIsSticky` | src/main/cpp/rocketmq/ProducerImpl.cpp:208-231 | from name-server reply to queue choice: permuted partitions give equal routes, equal queue lists and the same queue for a message group |
| `SendRetry.SendIsBounded` | src/main/cpp/rocketmq/SendCallbacks.cpp:63-106 | after any completions: between one and max attempts, attempt k to candidate k mod n, no user call while a request is out, and afterwards exactly one that matches the last attempt |
| `SendRetry.SendFinishes` | src/main/cpp/rocketmq/SendCallbacks.cpp:75-106 | once max-attempts completions are delivered the user has been called |
| `SendRetry.AttemptsEndAsReported` | src/main/cpp/rocketmq/ProducerImpl.cpp:305-311 | an attempt for a queue without an address ended with the bad-gateway error; the others end with the RPC completions, in their order, until the user has been told |
| `SendRetry.SendStep` | src/main/cpp/rocketmq/ProducerImpl.cpp:305-311 | `sendImpl`, with its immediate retry on unresolved addresses, terminates and keeps the invariant |
| `SendRetry.FailStep` | src/main/cpp/rocketmq/SendCallbacks.cpp:75-106 | `onFailure` keeps the invariant and either finishes or makes a further attempt |
| `SendRetry.Send0Rejects` | src/main/cpp/rocketmq/ProducerImpl.cpp:351-375 | no attempt is made if and only if the message is invalid, no queue is given or no attempt is allowed; then the user is told once, with the error of the first check that fails |
| `SendRetry.GroupSendIsSticky` | src/main/cpp/rocketmq/include/SendCallbacks.h:96-99 | every attempt and the reported queue of a keyed send is its group's queue |
| `SendRetry.RetrySendCallback.RunSendImpl` | src/main/cpp/rocketmq/ProducerImpl.cpp:305-311 | the in-place code has that effect; the recursion ends by the attempts left |
| `SendRetry.RetrySendCallback.RunOnFailure` | src/main/cpp/rocketmq/SendCallbacks.cpp:75-106 | the in-place code has that effect |
| `SendRetry.RetrySendCallback.RunOnSuccess` | src/main/cpp/rocketmq/SendCallbacks.cpp:63-73 | success is reported with the queue of the attempt that succeeded |
| `Scheduler.InvAlways` | src/main/cpp/scheduler/SchedulerImpl.cpp:123-193 | the invariant of timers, workers and table over every interleaving of schedule, cancel, shutdown and execute |
| `Scheduler.IdsDistinct` | src/main/cpp/scheduler/SchedulerImpl.cpp:123-145 | no two tasks ever share an id, and the table lists each under its own |
| `Scheduler.NeverOverlaps` | src/main/cpp/scheduler/SchedulerImpl.cpp:159-193 | two workers never run the callback of one task at the same time |
| `Scheduler.OneShotRunsOnce` | src/main/cpp/scheduler/SchedulerImpl.cpp:182-192 | a task with interval 0 starts its callback at most once in any run |
| `Scheduler.NeverEarly` | src/main/cpp/scheduler/SchedulerImpl.cpp:182-186 | run k starts when the expiry is the first one plus k intervals, and not before that time |
| `Scheduler.FirstExpiry` | src/main/cpp/scheduler/SchedulerImpl.cpp:138-143 | in every run the first expiry of an armed task is its delay after the step that armed it |
| `Scheduler.ListedNeverLost` | src/main/cpp/scheduler/SchedulerImpl.cpp:123-193 | a listed task that is periodic or has not run has exactly one wait outstanding or one worker at it, once armed |
| `Scheduler.ScheduleEffect` | src/main/cpp/scheduler/SchedulerImpl.cpp:123-145 | in every run, `schedule` lists a task with the next id and the given interval, keeps all others listed, and arms one wait its delay from now |
| `Scheduler.CancelEffect` | src/main/cpp/scheduler/SchedulerImpl.cpp:147-157 | in every run, cancelling an id removes that id, keeps every other with its task, and changes no task and no worker |
| `Scheduler.ListedUntil` | src/main/cpp/scheduler/SchedulerImpl.cpp:147-193 | in every run, a listed task leaves the table at a step if and only if that is a cancel of its own id, a shutdown, or the end of its own one-shot run while the scheduler lives |
| `Scheduler.SettleEffect` | src/main/cpp/scheduler/SchedulerImpl.cpp:182-192 | in every run, after its callback a periodic task has one wait, an interval after the last expiry, and a one-shot task none; no other task changes |
| `Scheduler.DeadForever` | src/main/cpp/scheduler/SchedulerImpl.cpp:147-163 | once a task has left the table and nobody shares it, no run starts its callback again |
| `Scheduler.OneWorkerIff` | src/main/cpp/scheduler/SchedulerImpl.cpp:147-171 | with one worker, some run starts a cancelled task again if and only if the worker had already locked it |
| `Scheduler.CancelledBegins` | src/main/cpp/scheduler/SchedulerImpl.cpp:147-171 | the failing run with one worker, from the start: a one-shot task is cancelled after the worker has locked it, and begins |
| `Scheduler.OneShotIff` | src/main/cpp/scheduler/SchedulerImpl.cpp:147-192 | with any number of workers, a cancelled one-shot task starts in some run if and only if a worker had locked it before its callback |
| `Scheduler.PeriodicIff` | src/main/cpp/scheduler/SchedulerImpl.cpp:159-186 | with two or more workers, whatever they are doing, a cancelled periodic task starts again in some run if and only if somebody still shares it |
| `Scheduler.CancelledBeginsAgain` | src/main/cpp/scheduler/SchedulerImpl.cpp:147-186 | the failing run with two workers, from the start: a periodic task is cancelled during its callback, re-armed, and begins again on the other worker |
| `Scheduler.SchedulerImpl.InsertTask` | src/main/cpp/scheduler/SchedulerImpl.cpp:132-137 | the locked part of `schedule` lists the task under a new id |
| `Scheduler.SchedulerImpl.CancelTask` | src/main/cpp/scheduler/SchedulerImpl.cpp:147-157 | afterwards the id is not listed, every other id is listed as before, and no task or worker has changed |
| `Scheduler.SchedulerImpl.Rearm` | src/main/cpp/scheduler/SchedulerImpl.cpp:182-192 | what follows the callback keeps the invariant: one interval later, or unlisted |
| `RateLimit.RateLimiter.constructor` | src/main/cpp/base/include/RateLimiter.h:59-73 | writes stay in bounds; the shares sum to the quota, and a slot gets one more than the average exactly if it is one of the first r multiples of size / r, r being the remainder |
| `RateLimit.RateLimiter.SplitQuota` | src/main/cpp/base/include/RateLimiter.h:59-73 | the same for the split itself |
| `RateLimit.RateLimiter.AvailablePermits` | src/main/cpp/base/include/RateLimiter.h:87-102 | the sum of the permits of the slots at distance size / 2 or less before the current one |
| `RateLimit.RateLimiter.Acquire` | src/main/cpp/base/include/RateLimiter.h:104-134 | the loops take from the slots as the closed forms say, and slots at a distance above size / 2 are left alone |
| `RateLimit.RateLimiter.DrainSlot` | src/main/cpp/base/include/RateLimiter.h:125-130 | the inner loop takes until the demand is met, looking only after taking one |
| `RateLimit.RateLimiter.TryAcquireOne` | src/main/cpp/base/include/RateLimiter.h:136-155 | takes one permit from the filled slot at the least distance before the current one; fails if and only if nothing is available |
| `RateLimit.RateLimiter.RunTick` | src/main/cpp/base/include/RateLimiter.h:166-174 | refills the current slot to its share and touches no other |
| `RateLimit.AcquireClosed` | src/main/cpp/base/include/RateLimiter.h:104-134 | `acquire(n)` returns min(n, available) plus the surplus slots, lowers the total by exactly that, raises no slot and leaves alone every slot at a distance above size / 2 |
| `RateLimit.DistanceIs` | src/main/cpp/base/include/RateLimiter.h:91-95 | the distance of slot k is (idx + size - k) % size |
| `RateLimit.AvailableIs` | src/main/cpp/base/include/RateLimiter.h:87-102 | `available()` is the sum of permits[k] over the slots k with (idx + size - k) % size <= size / 2 |
| `RateLimit.AcquireEach` | src/main/cpp/base/include/RateLimiter.h:104-134 | what is left in every slot: a current slot that suffices gives n; otherwise it is emptied, each filled slot of the past half cycle gives what the nearer ones leave open, but at least one, and no other slot gives anything |
| `RateLimit.LedgerSteps` | src/main/cpp/base/include/RateLimiter.h:104-174 | in every run: a tick sets one slot to its share, `acquire(n)` leaves alone the slots at a distance above size / 2, `acquire()` takes one from the filled slot at the least distance, and after a wait from the slot re-read |
| `RateLimit.AcquireBounds` | src/main/cpp/base/include/RateLimiter.h:104-134 | min(n, available) <= r <= min(available, n + slots / 2 - 1) |
| `RateLimit.OvershootIff` | src/main/cpp/base/include/RateLimiter.h:120-131 | r > n if and only if the current slot is short and some filled slot of the past half cycle has nearer slots that hold n already |
| `RateLimit.OvershootAttained` | src/main/cpp/base/include/RateLimiter.h:120-131 | the upper bound is attained for every number of slots |
| `RateLimit.SumsFit` | src/main/cpp/base/include/RateLimiter.h:87-134 | the 32-bit sums cannot overflow while slots stay within their shares |
| `RateLimit.WaitedIff` | src/main/cpp/base/include/RateLimiter.h:157-162 | after a wait the books stay balanced if and only if the slot re-read is not empty, as it is when it is the slot the predicate saw; the quota is a 32-bit number, or the share of the slot is below 2^32 - 1 |
| `RateLimit.WaitedWraps` | src/main/cpp/base/include/RateLimiter.h:157-162 | the failing run: a refill of slot 0, a wait that sees slot 0 and re-reads slot 1, whose counter wraps to 2^32 - 1 |
| `RateLimit.NeverOverGranted` | src/main/cpp/base/include/RateLimiter.h:104-174 | over any run of refills and acquisitions in which waiting callers re-read a slot that is not empty, no slot exceeds its share and granted plus remaining permits never exceed those refilled |
| `Hex.DecodeEncode` | src/main/cpp/base/MixAll.cpp:210-245 | `hexToBinary(hex(b))` is `b` for all byte strings |
| `Hex.EncodeDecode` | src/main/cpp/base/MixAll.cpp:210-266 | `hex(hexToBinary(s))` is `s` in upper case for every valid `s` |
| `Hex.EncodeAt` | src/main/cpp/base/MixAll.cpp:210-220 | byte i becomes the upper-case digits of its high and low half, in this order, at 2i |
| `Hex.CharValueIff` | src/main/cpp/base/MixAll.cpp:249-266 | a digit is read in either case, and nothing else is |
| `Hex.ToHex` | src/main/cpp/base/MixAll.cpp:210-220 | the loop prints two digits per byte, high half first |
| `Hex.FromHex` | src/main/cpp/base/MixAll.cpp:222-245 | accepts exactly the even-length hexadecimal texts; bytes before the first bad pair are appended even on failure |
| `UniqueId.UniqueIdGenerator.Next` | src/main/cpp/base/UniqueIdGenerator.cpp:58-78 | the id is the hexadecimal text of version, prefix and the new (second, sequence) pair; 32-bit truncation and wrap-around included |
| `UniqueId.UniqueIdGenerator.constructor` | src/main/cpp/base/UniqueIdGenerator.cpp:32-34 | starts at the current second with sequence 0 |
| `UniqueId.IdTextInjective` | src/main/cpp/base/UniqueIdGenerator.cpp:73-77 | ids are equal if and only if their (second, sequence) pairs are |
| `UniqueId.IdLayout` | src/main/cpp/base/UniqueIdGenerator.cpp:73-77 | an id spells 17 bytes: version 1, the prefix, the second and the sequence number, each with its low byte first |
| `UniqueId.SlotCounts` | src/main/cpp/base/UniqueIdGenerator.cpp:60-72 | the sequence number counts the draws of the second modulo 2^32 |
| `UniqueId.IdsEqualIff` | src/main/cpp/base/UniqueIdGenerator.cpp:58-88 | two ids of a run coincide if and only if drawn in one second, a multiple of 2^32 draws apart |
| `UniqueId.IdsDistinctIff` | src/main/cpp/base/UniqueIdGenerator.cpp:58-88 | all ids of a run under a steady clock below 2^32 seconds are distinct if and only if no second draws more than 2^32 |
| `Naming.BuildAddress` | src/main/cpp/rocketmq/NamingScheme.cpp:32-71 | the returned text is one that the collected segments allow: the first domain, or the IPv4 map joined in some order of its keys, or nothing |
| `Naming.SetAccessPoint` | src/main/cpp/rocketmq/ClientImpl.cpp:158-198 | scheme, host and 16-bit port of every item with a colon, or the exception of `std::stoi` |
| `Naming.ReadPairs` | src/main/cpp/rocketmq/ClientImpl.cpp:179-187 | the item loop, stopping at the first unreadable port |
| `Naming.ReadsInOrder` | src/main/cpp/rocketmq/ClientImpl.cpp:179-187 | a further item adds its address at the end, or fails the whole text if its port does not read |
| `Naming.SchemeIs` | src/main/cpp/rocketmq/ClientImpl.cpp:160-177 | the prefix decides the scheme and is dropped; a text without one of the three gives no endpoints |
| `Text.StoiIff` | src/main/cpp/rocketmq/ClientImpl.cpp:186 | a port text reads as v if and only if it is spaces, perhaps a sign, digits and anything else after the last of them, and v fits an int |
| `Text.AtoiIff` | src/main/cpp/rocketmq/NamingScheme.cpp:44 | a port text is accepted, as n, if and only if it is spaces, perhaps a plus, digits and spaces, and n fits 32 bits |
| `Naming.RoundTripIff` | src/main/cpp/rocketmq/NamingScheme.cpp:63-65 | for every segment list and print order: parsing gives the IPv4 scheme and exactly the collected host-to-port map if and only if every port is below 2^16 |
| `Naming.AddressesArePrinted` | src/main/cpp/rocketmq/NamingScheme.cpp:63-65 | the text is `ipv4:`, then host, colon and port of each entry with commas between them |
| `Naming.DomainIsPrinted` | src/main/cpp/rocketmq/NamingScheme.cpp:58-60 | the text is `dns:`, host, colon and port |
| `Naming.ParsedPrinted` | src/main/cpp/rocketmq/ClientImpl.cpp:158-198 | what parsing gives in all cases: ports modulo 2^16, or the exception if a port is 2^31 or more |
| `Naming.CollectedIff` | src/main/cpp/rocketmq/NamingScheme.cpp:36-48 | a host maps to a port if and only if the last segment naming that IPv4 host has that port |
| `Naming.DomainIff` | src/main/cpp/rocketmq/NamingScheme.cpp:36-61 | a domain is returned if and only if some two-part segment is not IPv4, and it is the first such segment |
| `Naming.DomainRoundTripIff` | src/main/cpp/rocketmq/ClientImpl.cpp:158-198 | a domain with a numeric port reads back as that single domain if and only if it holds no comma and the port is below 2^16 |
| `Naming.NothingBuilt` | src/main/cpp/rocketmq/NamingScheme.cpp:70 | with no usable segment the address is empty and reads back as no endpoints |
| `Naming.CollectSound` | src/main/cpp/rocketmq/NamingScheme.cpp:50-69 | collected hosts are IPv4 with 32-bit ports, and the IPv6 branch is never taken |
| `Naming.OctetIff` | src/main/cpp/base/InetAddress.cpp:21-22 | the octet pattern accepts exactly the numbers up to 255 without leading zeros |
| `Naming.IPv4Iff` | src/main/cpp/base/InetAddress.cpp:21-36 | a host is IPv4 if and only if it is four numbers up to 255, without leading zeros, with dots between them |

## Left out

- gRPC stubs, completion queues, protobuf requests, signing, TLS, DNS, compression, logging, tracing and the `ons`
  wrappers: an RPC is an environment step that completes at most once with any result.
- Clocks, the current rate-limiter slot, listener verdicts, hash values and address lookups are parameters.
- Asynchronous `ProducerImpl::send`: it goes on after reporting that the producer is not running, so callback counts are
  stated for `send0` only.
- Delayed consume retries: `ConsumeMessageServiceImpl::schedule` is empty, so a scheduled task stays parked, possibly
  forever; nothing is claimed about progress.
- Liveness of the broadcast drainer: a dispatch can see the flag set just before it is reset.
- Dead-letter forwarding is never entered (`ConsumeTasks.TaskIsOrderly`), so `onForward` is not modelled.
- STANDARD listeners under BROADCASTING keep their messages in the task for good; the pipeline counts them as held.
- Lifetime of the consumer and of the process queue inside the pipeline: both stay alive there. `ConsumeTasks.ConsumeTask.Pop`
  covers a queue that is gone.
- Overlapping synchronisations of one topic, and cycles that outlive their object in the table, can give an object a second
  receive cycle (`SyncRuns.OneCycleIff`); the back-pressure bounds are therefore stated for any number of cycles.
- Message bodies of 4 GiB and more: the broadcast drainer releases the 32-bit `bodyLength()`, which is the body size
  below that bound only.
- The use of `nextOffset` in requests, the new-host diff of `updateRouteCache`, lifecycle states of services, worker start and join, and the
  IPv6 print branch (proved unreachable).
- Conservation.MemoryBackPressure: needs a memory threshold above 0, since 0 switches that check off in the source.
- CycleTiming.LiveNeverExpiresIff: time passes only while every pending deadline is kept; `slack` bounds the processing
  time between two waits of a cycle. A cycle started on a queue whose clock was already running counts from its first
  receive on; `CycleTiming.NeverExpiresIff` covers it before that.
- PublishInfo.TopicPublishInfo.UpdatePublishInfo: takes the assertion that all partitions belong to the topic as its precondition.
- UniqueId.IdsDistinctIff: is about one process run with a steady clock below 2^32 seconds.
- Scheduler: the static id counter is taken as atomic and not wrapping; other schedulers may draw from it at any time.
- RouteCache.RouteTables.UpdateRouteCache: its precondition, no null route in the table, is the invariant proved in
  `RouteCache.InvAlways`.
