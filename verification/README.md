# The kube-trigger work queues in Dafny

kube-trigger watches event sources and feeds what it sees through work queues to workers that run actions.
This project models that queue stack and proves what it promises: the deduplicating FIFO queue, the delaying
queue in front of it, the keyed queue that merges newer items into pending ones, the rate limiters, the chunked
parallel loop, and the executor that retries jobs.

Objects that update themselves in place (the queues, the heap of delayed items with its self-indexed nodes, the
limiters) are classes whose methods are proved against functions on values. Whatever several goroutines do
together is a state machine: each lock-held section, clock read and channel operation is one step, any enabled
step may come next, and the theorems quantify over every run of every length. The value functions are shared by
both forms, so a method and the machine step that stands for it do the same thing by construction.

| file | content |
|---|---|
| `WaitHeap.dfy` | the intrusive priority queue and its by-item table |
| `WorkQueue.dfy`, `Waiters.dfy`, `QueueSystem.dfy`, `QueueCallers.dfy` | the FIFO queue, its condition variable, its runs, its callers |
| `WaitingLoop.dfy`, `DelayingQueue.dfy`, `DelayingSystem.dfy`, `DelayingRuns.dfy` | the loop both delaying queues share, the delaying queue, its runs: nothing lost, nothing early, all due served |
| `IndexerQueue.dfy`, `IndexerSystem.dfy`, `IndexerRuns.dfy` | the keyed queue, its machine, what its runs promise |
| `IndexerTokens.dfy`, `IndexerStale.dfy`, `IndexerLostKey.dfy` | when pending keys are pushed, and when they are lost |
| `IndexerCallers.dfy`, `IndexerBackPressure.dfy`, `IndexerStranded.dfy` | the callers of the keyed queue, the bound on the load, and when producers are stranded |
| `Backoff.dfy`, `RateLimiters.dfy`, `LimiterTree.dfy` | limiter delays, trees of limiters as values and as objects |
| `Parallelizer.dfy` | the chunked parallel loop |
| `Executor.dfy`, `ExecutorRetries.dfy`, `ExecutorKeeps.dfy`, `ExecutorRuns.dfy`, `ExecutorExclusion.dfy` | workers, bounded retries, jobs kept, retries in time and for a reason, mutual exclusion by ID |
| `Callers.dfy` | lists of callers in the middle of a call |

## Where code and promise part

The model follows the code. In these places the code does not do all that its documentation or its callers might
expect; each has an input on which it fails, and the exact condition under which it holds.

- A key of the keyed queue can be lost. A token left over from an entry that was brought forward swallows the
  token of the next entry, fires too early, and nothing pushes the key again. Any one positive delay suffices;
  with no positive delay it cannot happen (`NeverLostExactlyWithoutDelay`). For a single key in any reachable
  state `SafeExactlyWithoutStale` says which tokens endanger it.
- A producer waiting for room in the keyed queue can sleep for good on an empty queue when the producers woken
  before it fail on items without a key. It cannot happen when every added item has a key
  (`NeverStrandsExactlyWithKeys`).
- `ShutDownWithDrain` is documented to return once the queue has drained; it returns as soon as nothing is being
  processed, even with items queued (`DrainReturnsEarly`). It is sure to leave a drained queue exactly when nothing
  is dirty by the time it begins to test (`DrainsExactlyWhenClean`).
- Two `ShutDownWithDrain` calls at once: the last `Done` wakes one, the other sleeps on
  (`DrainSafeExactlyForOne`).
- `ShutDown` is documented to end a drain at once. A drainer that has read the drain flag and not yet gone to
  sleep misses the broadcast (`ShutDownMissesDrainer`, `ShutDownEndsDrainExactlyWhen`).
- `Done` on an item that nobody holds queues it twice if it is waiting (`DoneKeepsInv`).
- The exponential limiter guards its conversion with "greater than MaxInt64" on floats. 2^63 itself slips through,
  which a base that is a power of two of nanoseconds reaches, and so do not-a-number for a base of zero and
  everything too low for a negative base (`DelayExactlyCapped`).
- The executor looks up a running ID and notes its own in two steps, so two jobs of one ID can run at the same
  time with two workers (`ExclusiveExactlyWhen`). Without that race they still can, if a third job of the same ID
  allows concurrent runs: its end takes the ID off the list while another runs (`NoteIsTakenAway`,
  `ExclusiveUnlessRacingExactlyWhen`).

## Model

| member | source | states |
|---|---|---|
| `WaitHeap.SiftUpStep` | pkg/workqueue/delaying_queue.go:122-129 | Exchanging a node with a later parent moves the only possible disorder to the parent's place; every edge elsewhere stays in order. |
| `WaitHeap.SiftDownStep` | pkg/workqueue/delaying_queue.go:122-129 | Exchanging a node with its lesser child moves the only possible disorder to that child's place. |
| `WaitHeap.SiftDownEnd` | pkg/workqueue/delaying_queue.go:122-129 | Where sifting down stops, order holds below the start, and everywhere if the node moved or started at the root. |
| `WaitHeap.RootRemoved` | pkg/workqueue/delaying_queue.go:109-116 | With the last node put in place of the root, order can break only at the root. |
| `WaitHeap.RootIsLeast` | pkg/workqueue/delaying_queue.go:111-113 | In a heap-ordered sequence no time is less than the root's. |
| `WaitHeap.WaitForPriorityQueue.Swap` | pkg/workqueue/delaying_queue.go:125-129 | Two nodes change places, the stored indices follow, no node is lost. |
| `WaitHeap.WaitForPriorityQueue.Append` | pkg/workqueue/delaying_queue.go:133-138 | The raw push puts the node at the end with its own index. |
| `WaitHeap.WaitForPriorityQueue.RemoveLast` | pkg/workqueue/delaying_queue.go:142-148 | The raw pop hands out the last node with index -1 and keeps the others in place. |
| `WaitHeap.WaitForPriorityQueue.Up` | pkg/workqueue/delaying_queue.go:115-116 | From a heap out of order only at one node's upper edge, sifting up ends in full heap order with the same nodes, all indices right. |
| `WaitHeap.WaitForPriorityQueue.Down` | pkg/workqueue/delaying_queue.go:113-115 | Sifting down within the first n nodes leaves the rest alone, keeps the nodes and the indices, and restores order below the start. |
| `WaitHeap.WaitForPriorityQueue.Fix` | pkg/workqueue/delaying_queue.go:278-279 | After one node's time changed, fixing at its stored index restores full heap order. |
| `WaitHeap.WaitForPriorityQueue.HeapPush` | pkg/workqueue/delaying_queue.go:285-285 | A pushed node joins the others, in heap order, indices right. |
| `WaitHeap.WaitForPriorityQueue.HeapPop` | pkg/workqueue/delaying_queue.go:113-115 | The root is handed out, exactly the other nodes stay, in heap order, indices right. |
| `WaitHeap.Retime` | pkg/workqueue/delaying_queue.go:277-280 | Changing the time of a node found through its own index keeps heap order and the nodes. |
| `WaitHeap.Insert` | pkg/workqueue/delaying_queue.go:273-287 | The heap and the by-item table, taken together as a map from item to time, change exactly so that the item waits for the earlier of the two times; heap and table stay in step. |
| `WaitHeap.FirstIsLeast` | pkg/workqueue/delaying_queue.go:152-154 | The node at the front is the table's node for its item, and no waiting item has an earlier time. |
| `WaitHeap.TakeFirst` | pkg/workqueue/delaying_queue.go:222-224 | Taking the front node removes exactly its item from heap and table, and no item had an earlier time. |
| `WorkQueue.AddKeepsInv` | pkg/workqueue/queue.go:122-141 | Add keeps the queue equal to the dirty items not in processing, each once; on an open queue the item ends up dirty. |
| `WorkQueue.GetKeepsInv` | pkg/workqueue/queue.go:155-177 | Get keeps that invariant; the item it hands out was dirty and held by nobody. |
| `WorkQueue.DoneKeepsInv` | pkg/workqueue/queue.go:182-195 | Done keeps that invariant if and only if the item was in processing or was not dirty. |
| `WorkQueue.Type.constructor` | pkg/workqueue/queue.go:74-98 | A new queue is empty and open and meets the invariant. |
| `WorkQueue.Type.Add` | pkg/workqueue/queue.go:122-141 | The new state, the invariant, and exactly when the condition is signalled. |
| `WorkQueue.Type.Get` | pkg/workqueue/queue.go:155-177 | Exactly when the caller waits, leaves, or takes the head; the new state; the item taken was held by nobody. |
| `WorkQueue.Type.Done` | pkg/workqueue/queue.go:182-195 | The new state for any item, exactly when the condition is signalled, and exactly when the invariant survives. |
| `Waiters.SignalKeepsWakeInv` | pkg/workqueue/queue.go:139-140 | A signal, with or without a newly queued item, and whichever sleeper it wakes, leaves a woken consumer for every queued item while consumers sleep. |
| `Waiters.GetKeepsWakeInv` | pkg/workqueue/queue.go:158-165 | So does a consumer that takes an item, leaves, or goes to sleep. |
| `Waiters.BroadcastKeepsWakeInv` | pkg/workqueue/queue.go:256-261 | So does the broadcast of a shutdown. |
| `Waiters.DrainKeepsWakeInv` | pkg/workqueue/queue.go:216-242 | So does each step of a drainer. |
| `Waiters.DrainerLeavesExactlyWhen` | pkg/workqueue/queue.go:216-218 | A drainer leaves exactly at a test for processing items that finds none, or at a test of the flag that finds it cleared; a wakeup only takes it back to its test. |
| `QueueSystem.StepKeepsInv` | pkg/workqueue/queue.go:122-261 | Every step of every producer, consumer, drainer and shutdown keeps the queue invariant and the wakeup invariant together. |
| `QueueSystem.RunKeepsInv` | pkg/workqueue/queue.go:75-87 | Both invariants hold in every state of every run. |
| `QueueSystem.NoLostWakeup` | pkg/workqueue/queue.go:139-161 | In every reachable state a consumer sleeps only if the queue is open and each queued item has its woken consumer; consumers and drainers never sleep on the shared condition together, so no signal goes to the wrong kind. |
| `QueueSystem.StepMovesQueue` | pkg/workqueue/queue.go:139-195 | A step takes from the front only what Get hands out and adds at the back only what Add or Done queues. |
| `QueueSystem.FirstInFirstOut` | pkg/workqueue/doc.go:17-25 | In every run, what was handed out followed by what is queued is exactly what was ever queued, in order. |
| `QueueSystem.StepOnItem` | pkg/workqueue/queue.go:122-195 | For each item, a step makes it processing only by Get, clean only by Get, dirty only by an accepted Add, and not processing only by Done. |
| `QueueSystem.OneHolder` | pkg/workqueue/doc.go:17-25 | The Gets of an item exceed its Dones by one while it is in processing and by none otherwise: nobody else holds it. |
| `QueueSystem.AddIsNotLost` | pkg/workqueue/queue.go:121-141 | After every accepted Add the item is dirty until a later Get hands it out, even when it is added while in processing. |
| `QueueSystem.HeldUntilDone` | pkg/workqueue/queue.go:173-188 | An item handed out stays in processing until its Done. |
| `QueueSystem.CleanUntilAdd` | pkg/workqueue/queue.go:128-134 | An item handed out stays clean until it is added again. |
| `QueueSystem.BetweenTwoGets` | pkg/workqueue/doc.go:17-25 | Between two Gets of an item there are both a Done of it and an accepted Add of it: many Adds before a Get cost one Get. |
| `QueueSystem.StepTakesWork` | pkg/workqueue/queue.go:204-209 | On a shut queue each successful Get and each Done takes exactly one off twice the dirty items plus the processing items, and nothing else changes that number. |
| `QueueSystem.DrainProgress` | pkg/workqueue/queue.go:204-219 | Over any stretch of a run after shutdown that number falls by exactly the Gets and Dones; it is zero exactly when nothing is dirty or in processing. |
| `QueueSystem.LoneDrainerNotStranded` | pkg/workqueue/queue.go:213-242 | With at most one ShutDownWithDrain in progress, no drainer sleeps while nothing is in processing. |
| `QueueSystem.TwoDrainersStrand` | pkg/workqueue/queue.go:182-219 | A run with two ShutDownWithDrain calls in which the last Done wakes one and the other sleeps on with nothing in processing. |
| `QueueSystem.DrainSafeExactlyForOne` | pkg/workqueue/queue.go:213-242 | Over all runs with at most `limit` drainers at a time, no drainer is ever stranded if and only if `limit` is at most one. |
| `QueueSystem.StaysClean` | pkg/workqueue/queue.go:122-141 | Once the queue is shut and nothing is dirty, nothing becomes dirty in any continuation. |
| `QueueSystem.LeavesUndrained` | pkg/workqueue/queue.go:213-227 | If something is dirty when a drainer is about to test for processing items, a continuation in which the holders finish and the drainer leaves an undrained queue. |
| `QueueSystem.DrainsExactlyWhenClean` | pkg/workqueue/queue.go:204-227 | From a state with a drainer about to test for processing items: every drainer that leaves because it finds none, in every continuation, leaves a drained queue if and only if nothing is dirty in that state. |
| `QueueSystem.DrainReturnsEarly` | pkg/workqueue/queue.go:204-219 | A run in which ShutDownWithDrain returns although an item is still queued. |
| `QueueSystem.DrainReturnsOnlyWhen` | pkg/workqueue/queue.go:213-219 | In every run ShutDownWithDrain returns only at a moment when nothing is in processing or the drain flag is cleared. |
| `QueueSystem.IdleTestReturns` | pkg/workqueue/queue.go:216-227 | A drainer that tests while nothing is in processing returns. |
| `QueueSystem.ShutDownStopsAdds` | pkg/workqueue/queue.go:199-219 | After a shutdown, with drain or without, nothing becomes dirty and no consumer sleeps, in every continuation. |
| `QueueSystem.RunKeepsReleased` | pkg/workqueue/queue.go:199-202 | Once drainers are released none sleeps again, in any continuation without another ShutDownWithDrain. |
| `QueueSystem.FallsAsleep` | pkg/workqueue/queue.go:216-242 | A drainer already past its test of the drain flag, with work left, has a continuation in which it falls asleep after ShutDown. |
| `QueueSystem.ShutDownMissesDrainer` | pkg/workqueue/queue.go:199-242 | A run from the empty queue in which ShutDown clears the flag and broadcasts between a drainer's test of the flag and its wait, and the drainer sleeps after that. |
| `QueueSystem.ShutDownEndsDrainExactlyWhen` | pkg/workqueue/queue.go:199-219 | After ShutDown shuts the queue with the drain flag cleared, no drainer ever sleeps again if and only if none had passed its test of the flag, or nothing is queued or in processing. |
| `QueueCallers.CallersConserved` | pkg/workqueue/queue.go:155-261 | In every reachable state exactly the callers of Get, ShutDown and ShutDownWithDrain are inside that have come and not returned; no wait, signal or broadcast loses or doubles one. |
| `QueueCallers.WokenOnlyWhen` | pkg/workqueue/queue.go:139-140 | A step wakes a sleeper only if it queues an item or leaves nothing in processing, and more than one only if it shuts the queue down. |
| `QueueCallers.NobodyIsStuck` | pkg/workqueue/queue.go:122-261 | Whoever is inside and awake has a next step, and every call can begin at any time. |
| `WaitingLoop.StepHoldsNothingNew` | pkg/workqueue/delaying_queue.go:194-270 | No step of the loop invents a request. |
| `WaitingLoop.StepKeepsCover` | pkg/workqueue/delaying_queue.go:194-287 | A step of the loop lets go of a request only by handing its item over, or by keeping one that is no later. |
| `WaitingLoop.DeliveryIsDue` | pkg/workqueue/delaying_queue.go:213-225 | Whatever the loop hands over had a request whose time has come. |
| `WaitingLoop.StepUsesRequests` | pkg/workqueue/delaying_queue.go:194-287 | Each hand-over uses up a request for that item whose time has come, also when requests are counted by any set of times that holds all past ones. |
| `WaitingLoop.NeverStuck` | pkg/workqueue/delaying_queue.go:208-269 | Unless it has left the loop has a next step at all times; a timer is needed only where it waits on an empty channel, and it leaves exactly where it finds the queue shut or the stop channel closed. |
| `WaitingLoop.StepTakesEffort` | pkg/workqueue/delaying_queue.go:208-287 | Every step of the loop but that of a timer takes it closer to its wait. |
| `DelayingQueue.FiringFollowsLoop` | pkg/workqueue/delaying_queue.go:213-225 | Handing over the due items earliest first is, step by step, what the loop of the machine may do; it may neither stop before all are handed over nor hand a later one over first. |
| `DelayingQueue.DelayingType.constructor` | pkg/workqueue/delaying_queue.go:57-71 | A new delaying queue is empty: no item waits, and the queue behind it is empty and open. |
| `DelayingQueue.DelayingType.FireFirst` | pkg/workqueue/delaying_queue.go:222-224 | The item due first leaves the heap and the table and is added to the queue. |
| `DelayingQueue.DelayingType.AddReady` | pkg/workqueue/delaying_queue.go:213-225 | The loop adds exactly the items whose time has come, each once, earliest first, leaves exactly the others waiting, and then stops. |
| `DelayingQueue.DelayingType.Handle` | pkg/workqueue/delaying_queue.go:248-267 | A received request that is not due only brings its item's time forward; one that is due only adds its item. |
| `DelayingSystem.RunKeepsInv` | pkg/workqueue/delaying_queue.go:158-270 | In every run the queue invariant holds and the loop never compares with a future time. |
| `DelayingSystem.StepKeepsOnItsWay` | pkg/workqueue/delaying_queue.go:167-287 | On an open queue a request stays with its caller, or with the loop for a time no later, until a step in which the loop hands its item over. |
| `DelayingSystem.DirtyUntilGet` | pkg/workqueue/queue.go:122-177 | An item that is dirty in the open queue stays dirty until a Get hands it out, in every run. |
| `DelayingSystem.DelayedRequestNotLost` | pkg/workqueue/delaying_queue.go:166-186 | In every run, until shutdown, also for an item that is dirty already: a request with a delay is with its caller, or with the loop for a time no later, until the loop hands its item over at a step after the request; from there the item is dirty until a later Get. A request without a delay makes the item dirty at once, until a later Get. |
| `DelayingSystem.WaitsForMinimum` | pkg/workqueue/delaying_queue.go:273-287 | In every reachable state each item in the heap waits for the minimum of the times filed for it since it entered the heap, whatever was fired in between; the minimum is one of them. |
| `DelayingSystem.StepOnComing` | pkg/workqueue/delaying_queue.go:166-287 | A step adds at most one copy of an item, and only if it asks for the item; each Get takes one copy off. |
| `DelayingSystem.RunAllAsked` | pkg/workqueue/delaying_queue.go:166-287 | In every run the Gets of an item, its dirty mark and all its requests still on the way together are at most the calls that asked for it, each call paying for one. |
| `DelayingSystem.NeverEarly` | pkg/workqueue/delaying_queue.go:166-225 | Up to any moment of any run, the Gets of an item are at most its Adds plus its requests whose time has come by then; so no Get is early and no request pays twice. |
| `DelayingSystem.ShutDownStopsAdds` | pkg/workqueue/delaying_queue.go:158-164 | After ShutDown nothing becomes dirty in any continuation, whatever callers and the loop still do. |
| `DelayingSystem.GivenUpOnlyWhenShut` | pkg/workqueue/delaying_queue.go:181-185 | A caller gives up sending, and the loop leaves, only on a shut queue. |
| `DelayingRuns.SendersConserved` | pkg/workqueue/delaying_queue.go:181-185 | In every reachable state the callers about to send are those that asked with a delay and have neither sent nor given up, and the channel holds at most 1000 requests. |
| `DelayingRuns.RestsOnlyWhenThrough` | pkg/workqueue/delaying_queue.go:194-270 | On an open queue the loop and the senders have a step unless all is sent and received and the loop waits; then a timer can still move it. |
| `DelayingRuns.NeverSpins` | pkg/workqueue/delaying_queue.go:194-270 | In every run the steps of the loop and the senders are at most 24 for each request, 3 for each timer that went off, and 4. |
| `DelayingRuns.RoundServesDue` | pkg/workqueue/delaying_queue.go:213-225 | From a reading of the clock on, while the clock stands, what is due in the heap is being handed over or there is none. |
| `DelayingRuns.RestLeavesNothingDue` | pkg/workqueue/delaying_queue.go:194-270 | Where the loop comes to rest after a round, no request whose time has come is left with a caller, in the channel or in the heap. |
| `DelayingRuns.RoundBeginsAfter` | pkg/workqueue/delaying_queue.go:255-267 | A round begins only at the start, after a timer went off, or once the channel was found empty, and never on a shut queue. |
| `DelayingRuns.CanServeAllDue` | pkg/workqueue/delaying_queue.go:194-270 | From every reachable state of the open queue, for every time from now on, a continuation without further calls to that time that leaves no due request on its way. |
| `DelayingRuns.RequestCanBeServed` | pkg/workqueue/delaying_queue.go:166-270 | From every reachable state of the open queue a request on its way has a continuation without further calls that hands its item over, no later than its time or now. |
| `DelayingRuns.CloseFrees` | pkg/workqueue/delaying_queue.go:158-164 | Once the stop channel is closed every caller still sending can give up, and the loop can leave where it waits or begins a round. |
| `DelayingRuns.RunIsQueueRun` | pkg/workqueue/delaying_queue.go:166-225 | The queue in every run of the delaying queue goes through a run of the work queue with exactly the calls made, in order: the delaying queue refines the work queue. |
| `IndexerQueue.OfferKeepsInv` | pkg/workqueue/indexer_delaying_queue.go:281-311 | The locked part of AddAfter keeps the invariant: the queue holds each dirty key not in processing once, dirty keys are pending, and entries sit under their own keys. |
| `IndexerQueue.PushKeepsInv` | pkg/workqueue/indexer_delaying_queue.go:331-358 | push keeps it, whatever key it is given. |
| `IndexerQueue.HeadIsPending` | pkg/workqueue/indexer_delaying_queue.go:374-377 | The key at the head has a pending entry and is held by nobody. |
| `IndexerQueue.GetKeepsInv` | pkg/workqueue/indexer_delaying_queue.go:363-382 | Get keeps the invariant. |
| `IndexerQueue.GetKeepsLoad` | pkg/workqueue/indexer_delaying_queue.go:377-380 | Get moves an entry between the tables without changing how many there are. |
| `IndexerQueue.DoneKeepsInv` | pkg/workqueue/indexer_delaying_queue.go:387-407 | Done keeps the invariant if and only if the key was in processing or not dirty. |
| `IndexerQueue.IndexerDelayingQueue.constructor` | pkg/workqueue/indexer_delaying_queue.go:75-95 | A new queue is empty and meets the invariant. |
| `IndexerQueue.IndexerDelayingQueue.MergeInto` | pkg/workqueue/indexer_delaying_queue.go:287-297 | The pending entry, updated in place, gives way to a not lesser item and takes the earlier time; no other entry changes; reports whether the time moved. |
| `IndexerQueue.IndexerDelayingQueue.Create` | pkg/workqueue/indexer_delaying_queue.go:304-307 | A new entry object joins the pending table, shared with no other entry. |
| `IndexerQueue.IndexerDelayingQueue.Offer` | pkg/workqueue/indexer_delaying_queue.go:281-311 | The new state for every case (shutting down, pending, refused for a newer item in processing, new), the invariant, and exactly when a push is needed. |
| `IndexerQueue.IndexerDelayingQueue.Push` | pkg/workqueue/indexer_delaying_queue.go:331-358 | The new state, the invariant, and exactly when the condition is signalled: pending, due, unmarked and not in processing. |
| `IndexerQueue.IndexerDelayingQueue.Move` | pkg/workqueue/indexer_delaying_queue.go:377-380 | The entry object itself changes tables and is in no other place. |
| `IndexerQueue.IndexerDelayingQueue.Get` | pkg/workqueue/indexer_delaying_queue.go:363-382 | Exactly when the caller waits, leaves or takes; the head always has an entry, so a missing one is never dereferenced; the new state. |
| `IndexerQueue.IndexerDelayingQueue.Release` | pkg/workqueue/indexer_delaying_queue.go:394-405 | The new state after the locked part of Done, for any key, and exactly when the condition is signalled. |
| `IndexerQueue.IndexerDelayingQueue.Done` | pkg/workqueue/indexer_delaying_queue.go:387-407 | Nothing for an item without a key; otherwise the new state, both signals, and exactly when the invariant survives. |
| `IndexerSystem.StepStaysWakeful` | pkg/workqueue/indexer_delaying_queue.go:331-407 | Every step keeps a woken consumer for each queued key while consumers sleep. |
| `IndexerSystem.StepKeepsInv` | pkg/workqueue/indexer_delaying_queue.go:97-407 | Every step keeps the table invariant, marked keys due, and the wakeup invariant. |
| `IndexerSystem.RunKeepsInv` | pkg/workqueue/indexer_delaying_queue.go:97-407 | All of that holds in every state of every run of racing producers, consumers, drainers and the loop. |
| `IndexerRuns.GetFindsEntry` | pkg/workqueue/indexer_delaying_queue.go:374-381 | In every reachable state a non-empty queue's head has an entry of its own key that nobody holds. |
| `IndexerRuns.NoLostWakeup` | pkg/workqueue/indexer_delaying_queue.go:331-407 | In every reachable state a consumer sleeps only if the queue is open and each queued key has its woken consumer; consumers and drainers never sleep together. |
| `IndexerRuns.OneHolder` | pkg/workqueue/indexer_delaying_queue.go:363-407 | The Gets of a key exceed its Dones by one while it is in processing and by none otherwise. |
| `IndexerRuns.DrainReturnsOnlyWhen` | pkg/workqueue/indexer_delaying_queue.go:162-172 | In every run ShutDownWithDrain returns only at a moment when nothing is in processing or the drain flag is not set. |
| `IndexerRuns.FirstShutDownDecides` | pkg/workqueue/indexer_delaying_queue.go:111-172 | Only one of all ShutDown and ShutDownWithDrain calls shuts the queue, and the drain flag is set exactly when that one was with drain. |
| `IndexerRuns.ShutDownStopsAdds` | pkg/workqueue/indexer_delaying_queue.go:119-125 | After the shutdown no key becomes pending or dirty, and neither producers nor consumers sleep, in every continuation. |
| `IndexerRuns.FirstInFirstOut` | pkg/workqueue/indexer_delaying_queue.go:331-407 | In every run the keys handed out followed by those queued are exactly those ever queued, in order. |
| `IndexerRuns.MergeKeepsGreatest` | pkg/workqueue/indexer_delaying_queue.go:287-308 | For every transitive order, also with items that compare with some or with none: the pending item was offered since the key became pending, nothing offered since is strictly greater, nothing offered after it is as great; where all compare with all it is the greatest. |
| `IndexerRuns.MergeKeepsEarliest` | pkg/workqueue/indexer_delaying_queue.go:292-295 | The pending time is the minimum of the times asked since the key became pending. |
| `IndexerRuns.UncomparedKeepsFirst` | pkg/workqueue/indexer_delaying_queue.go:289-291 | For items that do not compare, the first one offered stays. |
| `IndexerRuns.PendingHasBegun` | pkg/workqueue/indexer_delaying_queue.go:304-307 | Every pending key of a reachable state became pending at some step and has been pending since. |
| `IndexerRuns.OfferAcceptedExactlyWhen` | pkg/workqueue/indexer_delaying_queue.go:281-311 | An offer to the open queue leaves its key pending if and only if the key was pending, or was not in processing with an item that compares and is not less or equal. |
| `IndexerRuns.AcceptedItemIsKept` | pkg/workqueue/indexer_delaying_queue.go:281-311 | In every run an item not refused is not lost: until a Get of its key the key is pending, for a time no later than asked and, for a transitive order, with an item that the offered one is not greater than. |
| `IndexerRuns.NeverEarly` | pkg/workqueue/indexer_delaying_queue.go:338-343 | Whatever stale tokens fire, Get hands a key out only when the minimum of the times asked since it became pending has come. |
| `IndexerRuns.PendingNotOlder` | pkg/workqueue/indexer_delaying_queue.go:298-303 | With a transitive order, a pending item is never older than the item of the same key in processing, in every reachable state. |
| `IndexerTokens.FiringMarks` | pkg/workqueue/indexer_delaying_queue.go:331-351 | If no token for a pending key is earlier than its entry, any token that fires makes the key dirty. |
| `IndexerTokens.StepKeepsToken` | pkg/workqueue/indexer_delaying_queue.go:313-328 | A step that does not push a key keeps its tokens, or the loop keeps an earlier one. |
| `IndexerTokens.StepMakesToken` | pkg/workqueue/indexer_delaying_queue.go:281-320 | The only new token is that of an offer that makes the key pending or brings it forward, and it is for the entry's new time. |
| `IndexerTokens.TokenCoverage` | pkg/workqueue/indexer_delaying_queue.go:281-358 | If no earlier token is on its way when an entry is made, then while the key is pending and unmarked on the open queue exactly the token it needs is on its way and no earlier one, whatever producers race. |
| `IndexerTokens.LostStaysLost` | pkg/workqueue/indexer_delaying_queue.go:331-358 | A pending, unmarked key without a token stays so until somebody offers that very key again. |
| `IndexerStale.StaleComesFrom` | pkg/workqueue/indexer_delaying_queue.go:182-358 | No step, offers and the clock included, makes a token stale for a key that stays pending: neither earlier than its entry and still to come due, nor in the heap where the key's token may be filed under it. |
| `IndexerStale.StepKeepsCovered` | pkg/workqueue/indexer_delaying_queue.go:182-358 | While the key stays pending and unmarked on the open queue, every step keeps the token it needs on its way and no token stale. |
| `IndexerStale.StaleLosesKey` | pkg/workqueue/indexer_delaying_queue.go:182-358 | From every state with a stale token, whatever else is on its way, a continuation in which the key stays unmarked and ends up lost. |
| `IndexerStale.SafeExactlyWithoutStale` | pkg/workqueue/indexer_delaying_queue.go:182-358 | In every reachable state, for a pending, unmarked key whose token is on its way: no continuation in which it stays so loses it, if and only if no token is stale. |
| `IndexerTokens.RunKeepsBacked` | pkg/workqueue/indexer_delaying_queue.go:260-358 | In every run whose AddAfter delays are zero or negative, each pending key of the open queue is dirty or has a token on its way. |
| `IndexerLostKey.KeyIsLost` | pkg/workqueue/indexer_delaying_queue.go:260-358 | For every positive delay, a run (AddAfter, Add, Get, Done, AddAfter) after which the key is pending, unmarked and without a token: the new token gave way to a stale one. |
| `IndexerLostKey.NeverLostExactlyWithoutDelay` | pkg/workqueue/indexer_delaying_queue.go:260-358 | Over all runs whose AddAfter delays lie in a given set, no key is ever lost if and only if that set holds no positive delay. |
| `IndexerBackPressure.OfferAddsOne` | pkg/workqueue/indexer_delaying_queue.go:281-311 | An offer raises the number of entries by one exactly when it makes a new entry. |
| `IndexerBackPressure.StepOnLoad` | pkg/workqueue/indexer_delaying_queue.go:97-101 | Done lowers the load by one, an offer raises it by at most one, nothing else changes it. |
| `IndexerBackPressure.LoadIsBounded` | pkg/workqueue/indexer_delaying_queue.go:260-271 | With items entering through Add and at most P calls in progress, the load never passes 128 + P - 1, although test and insertion are separate steps. |
| `IndexerBackPressure.StepStrandsExactlyWhen` | pkg/workqueue/indexer_delaying_queue.go:260-279 | A step leaves a sleeping producer with nobody to wake it if and only if it is the last producer on its way, on an empty queue, failing on an item without a key. |
| `IndexerBackPressure.ProducersNotStranded` | pkg/workqueue/indexer_delaying_queue.go:260-320 | In every run whose Adds carry keys, while a producer sleeps the queue is open and an entry or another producer on its way remains. |
| `IndexerStranded.ProducerIsStranded` | pkg/workqueue/indexer_delaying_queue.go:260-279 | Given 128 different keys and one item without a key, a run that ends with the queue open and empty, nobody on the way, and a producer asleep. |
| `IndexerStranded.NeverStrandsExactlyWithKeys` | pkg/workqueue/indexer_delaying_queue.go:260-279 | Over all runs whose Adds lie in a given set of items, no producer is ever stranded if and only if every item of the set has a key. |
| `IndexerCallers.CallersConserved` | pkg/workqueue/indexer_delaying_queue.go:260-407 | In every reachable state exactly the callers of Get, ShutDownWithDrain, Add and AddAfter are inside that have come and not returned. |
| `IndexerCallers.ChannelIsBounded` | pkg/workqueue/indexer_delaying_queue.go:82-82 | The channel never holds more than 1000 tokens. |
| `IndexerCallers.OfferWasCalled` | pkg/workqueue/indexer_delaying_queue.go:260-279 | Every offer on its way is of an item that a caller gave, under its key, for the time of the call plus the delay asked for. |
| `IndexerCallers.WokenOnlyWhen` | pkg/workqueue/indexer_delaying_queue.go:352-407 | A step wakes a consumer or drainer only if it queues a key or leaves nothing in processing, and more than one only if it shuts the queue down. |
| `IndexerCallers.GateWakesOnlyWhen` | pkg/workqueue/indexer_delaying_queue.go:119-125 | A producer at the gate is woken only by a Done, one at a time, or by the shutdown. |
| `IndexerCallers.LoneDrainerNotStranded` | pkg/workqueue/indexer_delaying_queue.go:129-172 | With at most one ShutDownWithDrain in progress, no drainer sleeps while nothing is in processing. |
| `IndexerCallers.ConsumersNotStuck` | pkg/workqueue/indexer_delaying_queue.go:363-407 | A consumer that is awake has a next pass, and Done is open for every key in processing. |
| `IndexerCallers.ProducersNotStuck` | pkg/workqueue/indexer_delaying_queue.go:260-328 | A producer waits only at the gate, while the open queue holds 128 entries or more, or for room in the channel, until the stop channel is closed. |
| `IndexerCallers.ShutDownNotStuck` | pkg/workqueue/indexer_delaying_queue.go:111-172 | The shutdown goes on to its end, and then every drainer can enter and move. |
| `Backoff.Cancel` | pkg/workqueue/default_rate_limiters.go:105-105 | If base times a power of two is a power of two, base is itself a power of two. |
| `Backoff.DelayExactlyCapped` | pkg/workqueue/default_rate_limiters.go:97-116 | For every base, positive or not: the delay is the smaller of base times two to the failures and the maximum, for every number of failures, if and only if base is positive and not a power of two, or positive and the platform converts 2^63 to no less than the maximum, or zero and the platform converts not-a-number suitably; never for a negative base. |
| `Backoff.DelayMonotone` | pkg/workqueue/default_rate_limiters.go:97-116 | Under that condition delays never fall as failures rise. |
| `Backoff.TotalDelayBounded` | pkg/workqueue/default_rate_limiters.go:97-116 | Under that condition the first k delays together are at most base times (2^k - 1). |
| `RateLimiters.WhenCounts` | pkg/workqueue/default_rate_limiters.go:97-116 | When adds one to every counting leaf's count of that item and changes no other item's. |
| `RateLimiters.ForgetCounts` | pkg/workqueue/default_rate_limiters.go:127-132 | Forget clears every counting leaf's count of that item and changes no other item's. |
| `RateLimiters.RequeuesAreCount` | pkg/workqueue/default_rate_limiters.go:213-223 | A tree whose counting leaves agree reports that count, and zero if no leaf counts. |
| `RateLimiters.RequeuesSinceForget` | pkg/workqueue/default_rate_limiters.go:28-36 | After any history of When and Forget on any items, a tree reports for each item the Whens since its last Forget. |
| `RateLimiters.HistoryKeepsShape` | pkg/workqueue/default_rate_limiters.go:187-261 | No history changes the settings or the composition of a tree, and each When takes exactly one answer from every bucket in it. |
| `RateLimiters.MaxOfIsWorst` | pkg/workqueue/default_rate_limiters.go:194-205 | For every tree, buckets included: a maximum of limiters answers at least zero and at least what any of them answers, and with zero or one of those answers. |
| `RateLimiters.MaxOfIsMost` | pkg/workqueue/default_rate_limiters.go:212-223 | A maximum of limiters reports at least as many requeues as any of them, and as many as one of them or none. |
| `RateLimiters.MaxWaitCutsOff` | pkg/workqueue/default_rate_limiters.go:243-251 | A maximum wait answers with the smaller of the limiter's answer and the maximum. |
| `RateLimiters.DelaySinceForget` | pkg/workqueue/default_rate_limiters.go:187-261 | After any history, for every tree, the delay depends on the item's count and the number of questions so far alone: the maximum of the leaves, each bucket with its next answer, cut off where a maximum wait is set. |
| `LimiterTree.RateLimiter.Leaf` | pkg/workqueue/default_rate_limiters.go:82-89 | A new leaf is of the kind asked for, has counted nothing, and a bucket answers as given. |
| `LimiterTree.RateLimiter.Over` | pkg/workqueue/default_rate_limiters.go:207-210 | Limiters that share nothing compose into a tree of the kind asked for that shares nothing, and that has counted nothing if they have not. |
| `LimiterTree.RateLimiter.FreshFromChildren` | pkg/workqueue/default_rate_limiters.go:207-241 | A maximum of, or a maximum wait over, limiters that have counted nothing has counted nothing. |
| `LimiterTree.RateLimiter.When` | pkg/workqueue/default_rate_limiters.go:97-116 | For every kind of limiter, the delay answered and the state of the whole tree afterwards. |
| `LimiterTree.RateLimiter.WorstOf` | pkg/workqueue/default_rate_limiters.go:194-205 | The loop asks every limiter once and answers with the worst, at least zero. |
| `LimiterTree.RateLimiter.Forget` | pkg/workqueue/default_rate_limiters.go:126-132 | For every kind of limiter, the state of the whole tree afterwards. |
| `LimiterTree.RateLimiter.ForgetAll` | pkg/workqueue/default_rate_limiters.go:225-230 | The loop makes every limiter forget the item. |
| `LimiterTree.RateLimiter.Requeues` | pkg/workqueue/default_rate_limiters.go:212-223 | For every kind of limiter, the number reported; nothing changes. |
| `Parallelizer.ChunksCover` | pkg/workqueue/parallelizer.go:101-103 | The chunks cover all pieces. |
| `Parallelizer.StepMovesPiece` | pkg/workqueue/parallelizer.go:81-95 | A step keeps the number of places (executed, with a worker, in the channel) a piece is in; only a stop may lower it. |
| `Parallelizer.AtMostOnce` | pkg/workqueue/parallelizer.go:46-99 | In every interleaving, canceled or not, no piece is executed twice and nothing but pieces is executed. |
| `Parallelizer.CanceledExactlyWhen` | pkg/workqueue/parallelizer.go:68-71 | The loop counts as canceled exactly from the first cancel on. |
| `Parallelizer.CancelStops` | pkg/workqueue/parallelizer.go:87-94 | From a cancel on no further piece is executed, in every continuation. |
| `Parallelizer.ExactlyOnce` | pkg/workqueue/parallelizer.go:46-99 | If all workers leave and no cancel came, every piece has been executed exactly once, or none if no worker was asked for. |
| `Parallelizer.WorkersStay` | pkg/workqueue/parallelizer.go:72-76 | There are as many workers as asked for, but no more than chunks. |
| `Parallelizer.TakesNextChunk` | pkg/workqueue/parallelizer.go:56-86 | In every run chunks are handed out in order, each the next so many pieces as asked for, or one; none is empty and only the last may be shorter. |
| `Parallelizer.StopIsForGood` | pkg/workqueue/parallelizer.go:88-91 | A worker that stops at a cancel, or leaves, does not come back. |
| `Parallelizer.EveryRunEnds` | pkg/workqueue/parallelizer.go:75-99 | The workers' steps in any run are bounded by a number known at the start. |
| `Parallelizer.NeverStuck` | pkg/workqueue/parallelizer.go:81-95 | While a worker has not left, some worker can take a step, and a cancel may come at any time. |
| `Executor.HolderMayFinish` | pkg/executor/executor.go:167-171 | The deferred Done is always called on a job in processing. |
| `Executor.StepKeepsInv` | pkg/executor/executor.go:140-216 | Every step keeps each held job in processing and with one worker only. |
| `Executor.RunKeepsInv` | pkg/executor/executor.go:140-252 | That holds in every state of every run of any number of workers. |
| `ExecutorRetries.WhenBumps` | pkg/executor/executor.go:141-142 | Asking the limiter about a job raises that job's number of requeues by one and no other's. |
| `ExecutorRetries.ForgetClears` | pkg/executor/executor.go:146-146 | Forgetting a job clears its number of requeues and no other's. |
| `ExecutorRetries.RequeuesWithinMaximum` | pkg/executor/executor.go:140-147 | In every reachable state no job's number of requeues passes the maximum, although it is read and raised in separate steps. |
| `ExecutorRetries.StepKeepsAccount` | pkg/executor/executor.go:140-216 | Every step keeps the account of a job: pick-ups are covered by added jobs and counted requeues, and requeues by jobs forgotten or not forgotten yet. |
| `ExecutorRetries.PickUpsBounded` | pkg/executor/executor.go:140-216 | A job added N times is picked up at most N * (maxRetries + 1) times, in every interleaving of any number of workers, with delays, failures and shutdown. |
| `ExecutorRetries.AllPickUpsBounded` | pkg/executor/executor.go:140-216 | The same bound for any set of jobs together. |
| `ExecutorKeeps.StepKeepsAlive` | pkg/executor/executor.go:140-216 | Until shutdown a job in the queue, on its way there, or undecided with a worker stays one of these in every step but one in which a worker gives it up. |
| `ExecutorKeeps.AddedJobIsKept` | pkg/executor/executor.go:150-216 | In every run, until shutdown, an added job is in the queue, on its way there or undecided with a worker, or a worker picked it up after it was added and gave it up after that: forgot it, was canceled, or saw it fail with retries off. |
| `ExecutorKeeps.ForgottenOnlyWhen` | pkg/executor/executor.go:140-199 | A worker forgets a job only after that worker's run of it succeeded, or when the job has been requeued exactly the maximum number of times since it was last forgotten. |
| `ExecutorRuns.AddingHasLimit` | pkg/executor/executor.go:140-147 | A worker puts a job back with the delay that the limiter answered when that worker last asked it, about that job. |
| `ExecutorRuns.RetriesNeverEarly` | pkg/executor/executor.go:140-216 | Up to any moment of any run the pick-ups of a job are at most its additions plus those of its returns whose time, the limiter's delay after the return, has come. |
| `ExecutorRuns.RequeuesHaveReasons` | pkg/executor/executor.go:179-212 | Each requeue of a job is for a conflict of its own, or, with retries on, for a failed run of its own. |
| `ExecutorRuns.WorkerNeverStuck` | pkg/executor/executor.go:161-216 | A worker that has a job always has a next step, and its run may end in any way. |
| `ExecutorRuns.LeavesExactlyWhen` | pkg/executor/executor.go:161-228 | A worker is on its way out exactly when its run was canceled or it left while idle. |
| `ExecutorRuns.AddedJobsWereAdmitted` | pkg/executor/executor.go:150-159 | Each added job was admitted, one for one. |
| `ExecutorRuns.AdmittedExactlyWithRoom` | pkg/executor/executor.go:150-159 | A job is admitted exactly when channel, heap and queue together hold fewer than the maximum. |
| `ExecutorExclusion.OneJobRunsOnce` | pkg/executor/executor.go:167-194 | The same job never runs in two workers at once. |
| `ExecutorExclusion.StepKeepsApart` | pkg/executor/executor.go:179-194 | For an ID of which no job allows concurrent runs: a step in which no worker looks while another of the same ID is between looking and starting keeps its jobs apart. |
| `ExecutorExclusion.ApartWithoutRace` | pkg/executor/executor.go:179-194 | For an ID of which no job allows concurrent runs: in every run without that race at most one of its jobs is starting or running. |
| `ExecutorExclusion.NoteIsTakenAway` | pkg/executor/executor.go:116-138 | A run without any race in which two jobs of one ID that forbid it run at the same time: a third of that ID, which allows concurrent runs, ended in between and took the ID off the list. |
| `ExecutorExclusion.ExclusiveUnlessRacingExactlyWhen` | pkg/executor/executor.go:179-194 | Over all runs without that race, two jobs of one ID that forbid it never run at the same time, if and only if there is at most one worker, or no ID has both two such jobs and one that allows concurrent runs. |
| `ExecutorExclusion.ExclusiveExactlyWhen` | pkg/executor/executor.go:179-194 | Over all runs, two jobs of one ID that forbid it never run at the same time, if and only if there is at most one worker or no two jobs share an ID and both forbid it. |

## Left out

Model choices and what they leave open:

- The executor is built on the Kubernetes client library's typed queue, which is not part of this repository; its workers are modelled over this repository's delaying queue and limiters, which offer the same contract.
- The heap stands in the state machines as the map from item to time that `WaitHeap` proves it to implement; ties between equal times may fire in any order.
- Taking an entry out of the heap and handing it to the queue is one step of the loop, since only the loop touches the heap.
- The test for shutdown at the beginning of the delaying queue's `AddAfter` is left open: a call may get past it at any time. That allows more runs than the code has, and every theorem holds for them all.
- Timers and the ten-second heartbeat only say that the loop may come round at any time; that it does within ten seconds is not stated, nor any other bound on real time.
- Locks, condition variables and channels behave as documented; whichever sleeper a signal wakes is open, and spurious wakeups do not occur, as in Go.
- `Done` is called in the machines only for items being processed, as the queues ask; the classes take any item.
- A limiter's `When` is one step of the executor, also where it asks several limiters in turn; since each item's count is its own and an item has one holder, interleaving them changes only which answer of the token bucket goes to whom.
- The token bucket's answers are a list given in advance, non-negative and otherwise arbitrary, and zero when the list ends; its rate arithmetic comes from another library.
- The `RateLimiter` interface is one class with a kind instead of five implementations, and limiters that share parts are not composed.
- Keys and items are of any type; the code's keys are strings.
- Integers are unbounded: counts, times and lengths that pass 64 bits are not modelled, except the conversion in the exponential limiter.
- Negative piece or worker counts of the parallel loop, on which the code panics, are not modelled; the chunks in the closed channel are a counter.
- Panics in jobs or work pieces and their recovery are not modelled.

Contracts stated on less than everything:

- DelayExactlyCapped: a base of 2^53 nanoseconds or more stands for the float nearest to it, because the rounding of the base itself is not modelled.
- LoadIsBounded: covers items that enter through `Add`; `AddAfter` with a delay is not held back by the code, so no bound holds for it.
- MergeKeepsGreatest: needs a transitive order, because the code compares only with the item it holds.
- PendingNotOlder: needs a transitive order, for the same reason.
- NeverStrandsExactlyWithKeys: assumes 128 different keys exist, because with fewer the queue may never fill and the gate never closes.
- ApartWithoutRace: speaks of IDs of which no job allows concurrent runs, because for mixed IDs it is false (`NoteIsTakenAway`).
- ExclusiveExactlyWhen: assumes room for at least one job in the queue, because without it no job is ever added.
- ExclusiveUnlessRacingExactlyWhen: assumes room for at least one job in the queue, for the same reason.
- SafeExactlyWithoutStale: speaks of keys whose own token is on its way, as it is when an entry is made, because a key without one is lost or waits for another's.

Parts of the repository not modelled:

- The metrics of the queues (`metrics.go`) and `updateUnfinishedWorkLoop`, which do not influence the queues.
- `Len` and `ShuttingDown` as calls of their own, which only report.
- `delayingType.ShutDownWithDrain`, inherited as it is from the queue: it does not close the stop channel, so the loop leaves at its next test for shutdown.
- The executor's job deadline and its timeout at shutdown: a job's outcome is open, and so is the time of leaving.
- Constructors that only pass names, clocks or queues on.
- The Kubernetes controller, informers and watches, the command line, CUE filters, templates and actions, configuration and custom resources, cron sources, generated deep copies.
