# Verified model of the Origamy Go client

This project models the asynchronous delivery pipeline of the client and its synchronous segment calls, and
proves what they promise. `dafny verify dfyconfig.toml` checks all of it.

**The batcher.** `Batching` says what a good segmentation of a message stream is, defines the greedy one
(longest feasible prefix, repeated), and proves that the online batcher computes it and that no
order-preserving segmentation within the limits is shorter. `MessageQueues` is the batcher itself, appending in
place to a reserved buffer and giving the buffer away. `EventTrace` runs a whole trace of messages and flushes;
`EventLoops` is the loop that does so, from its first turn to the last flush. `WireForm` says what a request
holds byte by byte, and `WireSize` how large it gets.

**The pipeline.** `Pipeline` is the client as a transition system. Any number of `Enqueue` and `Close` calls,
the event loop, the executor's loop and one goroutine per admitted batch are interleaved step by step:
`Enqueue` reads the flag, sends or panics, asks `IsClosed`; closing the queue stores the flag and then closes
the channel; `do` locks and tests, sends, increments, unlocks; a task marshals, calls `Send`, waits, makes one
callback at a time, calls `wg.Done`, locks, decrements, unlocks, and may panic anywhere inside `send`; the
loop's deferred calls run in reverse order. `PipelineInvariant` states one inductive invariant,
`PipelineSteps` and `PipelineLoopSteps` prove that every step keeps it, and `PipelineTheorems`,
`PipelineSafety` and `PipelineLiveness` draw the promises from it, for every state of every run;
`PipelineHistory` holds them against the steps that were taken, and `PipelineProgress` shows what can always
still happen. The batcher,
the channel, the executor and the retry record in `Pipeline` are the same functions and predicates that the
classes and loops of `MessageQueues`, `EventLoops`, `Channels`, `Executors` and `Retry` are proved against.

**Segments.** `Segments` holds the loops of `write` and `post`; `SegmentTheorems` proves that splitting a list
into requests cannot be noticed and that a failed call is an exact prefix of a successful one;
`SegmentRejections` follows every rejection from the answer it came in to the caller's row it names, and
`SegmentErrors` every error to the reply that caused it.

Assumptions about the surroundings: the batch size, the queue capacity and the limit on concurrent requests are
at least one, as `makeConfig` and `NewChannelQueue` leave them; the queue is the default one and only the
client closes it; messages are not nil; `sentAt` renders to 24 characters; `Dispatcher.Send`, `RetryAfter` and
the callbacks return or panic, and do not panic when the event loop calls them. JSON text is a sequence of
bytes, and an encoded message is placed in the batch unchanged. A callback is recorded whether or not the
application installed one. Clocks, timers and the replies of servers are free choices.

The code differs from its documentation in one place. The architecture notes call 500 KB of batch bytes a hard
limit (ARCH.md:430) and the constant is 500000 (internal/core/message.go:123-126). The batcher tests `len + 1`
but accumulates `len`, and the envelope is estimated with `null` for the array, so a batch of n messages may be
n - 4 bytes over. `BoundIsAttained` gives a run that makes a request of 500012 bytes, and
`DocumentedLimitHoldsIff` proves that the limit holds of every run exactly when the batch size is at most 15. The
default batch size is 250. `CountingCommasWouldFit` proves that accumulating `size()` would mend it.

## Model

| member | source | states |
|---|---|---|
| Messages.PayloadLength | internal/core/analytics.go:412-417 | the wire form of n messages takes 47 + n bytes beside their encodings, and the batcher's budget is 499950 |
| WireForm.MarshalIsRequest | internal/core/analytics.go:295-298 | a payload is, byte by byte, the object with `sentAt` and the array of the batch's encodings in order, each at the offset its predecessors settle, with commas between them and nothing else |
| WireForm.RequestIsUnique | internal/core/message.go:62-85 | these requirements settle every byte: exactly one payload meets them |
| Batching.PushKeepsValid | internal/core/message.go:99-116 | after a push `bytes` is the sum of the pending lengths and fewer than `maxBatchSize` messages are pending; a returned batch is within the limits; nothing is lost or reordered |
| Batching.GreedyIsPartition | internal/core/message.go:99-121 | the greedy segmentation concatenates to its input and every part is within the limits |
| Batching.GreedyIsOptimal | internal/core/message.go:99-121 | no order-preserving segmentation within the limits has fewer parts |
| Batching.OnlineIsGreedy | internal/core/message.go:99-121 | pushing any messages onto any valid state and flushing yields the greedy segmentation of pending and pushed messages, for all limits |
| Batching.BatcherIsOptimal | internal/core/message.go:99-121 | the batches of a push sequence and its final flush are as few as any admissible segmentation has |
| MessageQueues.Append | internal/core/message.go:108 | Go's `append`: in place while capacity lasts, otherwise a copy that leaves the old buffer alone |
| MessageQueues.MessageQueue.constructor | internal/core/analytics.go:339-342 | a new batcher is empty and has handed nothing off |
| MessageQueues.MessageQueue.Flush | internal/core/message.go:118-121 | returns the pending slice itself and leaves the batcher empty |
| MessageQueues.MessageQueue.Add | internal/core/message.go:104-109 | the message joins the slice within the reserved buffer, which is never outgrown |
| MessageQueues.MessageQueue.Push | internal/core/message.go:99-116 | refines the pure push, keeps the invariant, and never writes a buffer handed off before |
| EventTrace.RunKeepsOrder | internal/core/analytics.go:347-396 | over any trace of messages and flushes, batches then pending messages are the kept messages in order, and all batches are within the limits |
| EventTrace.ReceivedSplits | internal/core/analytics.go:373-381 | every received message is either batched or reported as failed, once |
| EventTrace.KeptExactly | internal/core/message.go:72-81 | the kept messages are, in order, exactly those that encode in at most 32000 bytes, with their own encodings; the others are reported in order, each as unencodable or too big |
| EventTrace.RunIsGreedyBetweenTicks | internal/core/analytics.go:347-396 | after any trace the batches are the greedy segmentations of the finished segments, then what the batcher makes of the current one |
| EventTrace.BatchesAreGreedyBetweenTicks | internal/core/analytics.go:344-396 | with the last flush, the batches are exactly the greedy segmentations between consecutive flushes |
| EventLoops.EventLoop.constructor | internal/core/analytics.go:339-342 | the loop starts with nothing handed off and nothing failed |
| EventLoops.EventLoop.Push | internal/core/analytics.go:373-389 | an unencodable or oversized message is reported with its error and changes nothing else; any other is batched |
| EventLoops.EventLoop.Flush | internal/core/analytics.go:391-396 | the pending messages, if any, are handed off and nothing stays pending |
| EventLoops.EventLoop.Turns | internal/core/analytics.go:347-355 | the select's turns refine the trace semantics, and batches handed off earlier stay intact |
| EventLoops.EventLoop.Drain | internal/core/analytics.go:360-364 | what is left in the queue is handled in order before the loop ends |
| EventLoops.EventLoop.Loop | internal/core/analytics.go:339-369 | for any outcomes of the select, the loop hands off the greedy batches between ticks, each still holding at the end what it held when handed off, and reports exactly the dropped messages |
| WireSize.WireBound | internal/core/message.go:99-126 | a batch of n messages within the limits makes a request of at most 500000 + n - 4 bytes, and of at most 500000 when n is at most 15 |
| WireSize.BoundIsAttained | internal/core/message.go:99-126 | a run of sixteen alias messages, encoded as the client encodes them, whose one request has 500012 bytes, exactly the bound |
| WireSize.DocumentedLimitHoldsIff | ARCH.md:427-431 | every request of every run keeps to 500000 bytes if and only if the batch size is at most 15 |
| WireSize.CountingCommasWouldFit | internal/core/message.go:87-109 | if push accumulated `size()` instead of the length, every request of every run would keep to 500000 bytes for every batch size, with no message lost or reordered |
| Retry.Notify | internal/core/analytics.go:419-433 | one callback per message, in order, all with the same verdict |
| Retry.Send | internal/core/analytics.go:291-324 | between one and ten sends of the same payload, stopping at the first delivery or when the client is closed; success exactly when the last send was delivered, otherwise failure with its error, for every message |
| Channels.ChannelQueue.constructor | internal/queue/channel.go:37-54 | an open empty queue with the requested capacity, or 100 when that is not positive |
| Channels.ChannelQueue.Enqueue | internal/queue/channel.go:70-84 | accepted exactly when the queue is open and has room; a closed queue refuses |
| Channels.ChannelQueue.TryEnqueue | internal/queue/channel.go:88-99 | as `Enqueue`, reporting a full queue instead of waiting |
| Channels.ChannelQueue.Dequeue | internal/queue/channel.go:104-107 | messages come out in the order accepted, also after the close; closed and empty says so |
| Channels.ChannelQueue.TryDequeue | internal/queue/channel.go:111-119 | as `Dequeue`, returning at once from an empty queue |
| Channels.ChannelQueue.Close | internal/queue/channel.go:146-154 | closes once, keeps the buffered messages, and may be repeated |
| Channels.ChannelQueue.Drain | internal/queue/channel.go:124-126 | ranging over a closed queue yields all that was accepted and not received, in order, and ends |
| Executors.Executor.constructor | internal/core/executor.go:12-19 | an open executor with no task |
| Executors.Executor.Spawn | internal/core/executor.go:38-42 | the queued task, and only it, gets a goroutine |
| Executors.Executor.Do | internal/core/executor.go:21-32 | lock, test, send, increment, unlock, as `AfterDo`: admits exactly when fewer than `cap` tasks are unfinished; a refused task changes nothing |
| Executors.Executor.Done | internal/core/executor.go:49-53 | lock, decrement, unlock, as `AfterDone`: a finished task leaves the running ones and the count |
| Executors.Executor.Close | internal/core/executor.go:34-36 | no more tasks after the close; those admitted stay |
| Executors.Executor.Loop | internal/core/executor.go:38-42 | a task still buffered at the close is run: in the end all admitted tasks were, in order |
| PipelineLoopSteps.StepKeepsInv | internal/core/analytics.go:171-396 | every step of every goroutine keeps the invariant |
| PipelineLoopSteps.InvAlways | internal/core/analytics.go:171-396 | the invariant holds of every state of every run |
| PipelineTheorems.OrderPreserved | internal/core/analytics.go:344-396 | in every state, batches in hand-off order, pending messages, the message in hand and the queue are the accepted sequence without unencodable and oversized messages |
| PipelineTheorems.BatchesAtShutdown | internal/core/analytics.go:327-396 | at shutdown every accepted message was received and the batches made are exactly the greedy ones between flushes |
| PipelineTheorems.Conservation | internal/core/analytics.go:270-371 | in every state the accepted messages are, with multiplicity, those in the queue, in hand, pending, on the way in, in the executor, in flight, notified, or lost to a panic |
| PipelineTheorems.AtMostOnce | internal/core/analytics.go:270-324 | no message ever has a second callback, nor one without having been accepted |
| PipelineTheorems.ExactlyOnce | internal/core/analytics.go:251-324 | at shutdown every accepted message has had exactly one callback, or is accounted for as lost to a task that panicked |
| PipelineSafety.ShutdownOrder | internal/core/analytics.go:251-267 | when `shutdown` is closed the queue is closed and empty, nothing is pending, the wait group is zero and all callbacks of every task are made; the dispatcher is closed only then and at most once |
| PipelineSafety.NoSendAfterDispose | internal/core/analytics.go:260-265 | after the dispatcher is closed no `Send` returns and no callback is made, for the rest of the run |
| PipelineSafety.Admission | internal/core/executor.go:21-53 | admitted unfinished tasks number `size`, plus one between send and increment; never more than `cap`, and a batch is refused only when exactly `cap` are unfinished |
| PipelineSafety.NoTaskLost | internal/core/executor.go:34-47 | nothing is submitted after the close, no task runs twice, and when the executor's loop ends every task not refused has run |
| PipelineSafety.DoUninterrupted | internal/core/executor.go:21-47 | from any reachable call of `do` with the mutex free, the loop's steps, with a turn of the executor's loop where the send must wait, make a stretch of a run that does to the executor what the class method `Do` does |
| PipelineSafety.DoneUninterrupted | internal/core/executor.go:49-53 | a finishing task's lock, decrement and unlock make a stretch of a run that does what the class method `Done` does |
| PipelineSafety.EnqueueResults | internal/core/analytics.go:240-248 | a valid message's call returns nil exactly when the message entered the queue, and otherwise `ErrClosed`, never the queue's own error |
| PipelineSafety.LateCallsShutOut | internal/queue/channel.go:70-84 | a call started after the flag was stored never gets its message in |
| PipelineSafety.ClosedMeansClosed | internal/core/analytics.go:240-267 | after a `Close` has returned nil every later call with a valid message returns `ErrClosed` |
| PipelineSafety.EnqueueIsShort | internal/core/analytics.go:240-248 | in any run an `Enqueue` call takes at most three steps after its start |
| PipelineSafety.SendersReleased | internal/queue/channel.go:70-84 | in any run a sender that the close of the channel finds blocked always has a step to take until it returns, has returned after two of its own, with `ErrClosed`, and its message never enters the queue |
| PipelineSafety.CloseProtocol | internal/core/analytics.go:251-267 | of any two `Close` calls at most one gets past closing `quit`; it returns nil only after the drain; the other returns `ErrClosed` |
| PipelineSafety.SomeoneClosed | internal/core/analytics.go:251-261 | `quit` is closed exactly when some call got past it |
| PipelineSafety.RetryDiscipline | internal/core/analytics.go:291-324 | in every interleaving a task makes at most ten sends of its batch's wire form, none after a delivery, and leaves `send` with the one verdict its sends call for, given once to each message |
| PipelineSafety.EveryRequestFits | internal/core/message.go:99-126 | every request of every interleaving obeys the bound on its size |
| PipelineHistory.EnqueueDecides | internal/core/analytics.go:171-248 | in every run a call with a valid message is never refused as invalid and returns nil exactly when the message was accepted; an invalid message is never accepted, batched or notified |
| PipelineHistory.CloseDecides | internal/core/analytics.go:251-261 | in every run the first call that comes to close `quit` gets past it and never returns `ErrClosed`; every later one returns `ErrClosed` by that step |
| PipelineHistory.CloseReturns | internal/core/analytics.go:251-267 | a `Close` call is never stuck except while it waits for the shutdown, and has returned after three steps of its own |
| PipelineHistory.AnswersRecorded | internal/core/analytics.go:305-317 | a task's attempts are exactly the answers it got from `Send` in the run, in order |
| PipelineHistory.SendOutcome | internal/core/analytics.go:291-324 | in every run a task that has left `send` without a panic marshalled its batch before; if that worked it sent the batch's request one to ten times and the answers settle its verdict, if not it sent nothing and its messages failed |
| PipelineHistory.SendOutcomeAfter | internal/core/analytics.go:291-324 | the same, forward from the step that marshalled the batch |
| PipelineHistory.QuitEndsSend | internal/core/analytics.go:311-317 | in every run a task that finds the client closed between two attempts never calls `Send` again |
| PipelineHistory.OnTheWire | internal/core/analytics.go:291-306 | every payload handed to `Send` in any run is, byte by byte, the request for its task's batch, so that the order of acceptance reaches the wire |
| PipelineHistory.CallbackIsTrue | internal/core/analytics.go:270-324 | every callback of every run is true: success means that the last request of the message's batch was delivered, a failure that it was refused with that error, or never made for the reason given |
| PipelineHistory.UnfitFails | internal/core/analytics.go:373-381 | a message that does not encode in 32000 bytes has failed with its reason once the loop has handled it, and at the latest at shutdown |
| PipelineProgress.CanReceive | internal/core/analytics.go:347-352 | from every reachable state at the select with a message in the queue, open or closing, the client's own steps receive the first one |
| PipelineProgress.CanFlush | internal/core/analytics.go:354-355 | from every reachable state at the select with messages pending, the client's own steps make them a task |
| PipelineProgress.CanEnqueue | internal/core/analytics.go:171-248 | at any moment before the flag is stored, with room in the queue, a call with a valid message can have it accepted in three steps |
| PipelineProgress.CanEnqueueLate | internal/core/analytics.go:240-246 | at any moment after the flag is stored a call with a valid message gets `ErrClosed` in three steps and changes nothing else |
| PipelineProgress.CanClose | internal/core/analytics.go:251-260 | at any moment a call of `Close` closes `quit`, or gets `ErrClosed` if it was closed, in two steps |
| PipelineProgress.EverythingCanResolve | internal/core/analytics.go:270-371 | from every reachable state, open or closing, the client's own steps can bring every accepted message to its one callback, but for those lost to earlier panics |
| PipelineProgress.EveryFateIsPossible | internal/core/analytics.go:291-324 | from every reachable state a task about to marshal can fail to, or get any sequence of answers that is refused but for a last delivery and ends by it, at ten, or at the close |
| PipelineProgress.PanicReleases | internal/core/analytics.go:274-285 | at any point of `send` a panic ends the task's callbacks and leaves the wait group |
| PipelineLiveness.NoDeadlock | internal/core/executor.go:21-53 | a client that is not just waiting for input and not finished always has a step to take, though `do` may block with the mutex held |
| PipelineLiveness.SettledCanReturn | internal/core/analytics.go:260-266 | a finished client has shut down and any waiting `Close` can return |
| PipelineLiveness.StepRank | internal/core/analytics.go:292-371 | every step of the client itself lowers the measure, but for a tick, and from outside only an accepted message raises it |
| PipelineLiveness.WorkIsBounded | internal/core/analytics.go:292-371 | in any stretch of any run, closing or not, the client takes at most as many steps of its own as the measure at its start, twelve for every tick and a hundred for every message accepted in it |
| PipelineLiveness.WholeRunIsBounded | internal/core/analytics.go:292-371 | a whole run has at most 71 internal steps, twelve for every tick and a hundred for every accepted message |
| PipelineLiveness.QuitTerminates | internal/core/analytics.go:326-371 | once the quit case is taken there are no more ticks, and the client takes at most as many more steps as the measure and the room in its queue allow, whatever calls arrive |
| PipelineLiveness.StuckIsSettled | internal/core/analytics.go:326-371 | a quitting client with nothing left to do has shut down with every task at its end |
| Segments.PostFrom | segments.go:197-237 | a request ends with a result or with an error, never both and never neither |
| Segments.Post | segments.go:197-237 | the loop over the attempts refines the recursive account of them |
| Segments.Write | segments.go:164-195 | the loop over the chunks refines the recursive account of them |
| SegmentTheorems.PostLogGrows | segments.go:204-236 | one `post` sends its own request at most three times and nothing else |
| SegmentTheorems.PostDiscipline | segments.go:213-274 | a request is repeated only after a transient reply and an undisturbed wait, gives a result exactly when the last reply is a decodable 200, and gives up early only when the context ends it |
| SegmentErrors.PostTold | segments.go:197-274 | the error of a request is the one its last reply calls for, by status, code and text, wrapped as a cancellation exactly when a wait was cut; a request is repeated exactly after a transient reply without an ended context; unencodable rows and a bad address are reported unsent |
| SegmentErrors.WriteErrorTold | segments.go:164-195 | the error of a call is that of the first chunk not answered, told the same way; a bad segment id is refused with nothing sent |
| SegmentTheorems.FailureIsPrefix | segments.go:164-195 | a failed call returns the total a call with exactly the covered rows returns without error; the error is that of the next chunk, and nothing is sent after it |
| SegmentTheorems.RequestsBounded | segments.go:164-237 | at most three requests per thousand rows, and none for a bad segment id |
| SegmentTheorems.SummaryConcat | segments.go:186-192 | answering two lists one after the other and combining with rebased indexes is answering their concatenation |
| SegmentTheorems.SplittingIsInvisible | segments.go:145-195 | with a server that judges the rows of the call one by one, the call returns the counts and rejections, at the caller's indexes and in order, that one unlimited request over the covered rows is answered, and over all rows when there is no error |
| SegmentTheorems.EveryServiceHasAServer | segments.go:141-162 | the assumption of `SplittingIsInvisible` is met, for all calls at once, by a server whose judgement depends on the segment, the row, the direction and the region in any way |
| SegmentRejections.TotalIsTally | segments.go:170-195 | for any server, every request asks for the chunk that begins where the answered ones end, the total is the sum of the successful answers, and there is no error exactly when they cover every row |
| SegmentRejections.RequestsAreFull | segments.go:170-180 | every request holds between one and 1000 of the rows, in order, and 1000 unless it reaches the last row |
| SegmentRejections.RejectionsNameRows | segments.go:186-194 | for any server, every combined rejection comes from a successful answer and names, at the caller's index, the row it named there; and no rejection of a successful answer is missing |
| SegmentRejections.IndexesConserved | segments.go:186-194 | if every answer accounts for its rows with increasing indexes in range, so does the total for all covered rows, and every combined rejection names the row its answer named |

## Left out

- Channels.ChannelQueue.Enqueue: contract for one goroutine at a time; the race with `Close` is in `Pipeline`, where both are split into their atomic steps.
- Channels.ChannelQueue.TryEnqueue: does not model a concurrent close, in which the queue can panic; the client never calls it.
- Executors.Executor.Do: the wait for the executor's loop is resolved by running that loop at once; `DoUninterrupted` shows this to be one of the interleavings of `Pipeline`, which has all the others.
- EventLoops.EventLoop.Loop: takes the outcome of each `select` as its input; the choice itself is in `Pipeline`.
- PipelineLiveness.QuitTerminates: counts from the moment the `select` takes the quit case; before it `WorkIsBounded` applies, and that the case is taken at all rests on Go's random choice among ready cases.
- Pipeline keeps tasks, queue and batcher as values; updates in place and ownership of buffers are in `MessageQueues` and `EventLoops`.
- The HTTP and console dispatchers, headers, authentication and request timeouts: I/O, represented by the result of `Send`.
- JSON encoding, reflection, identifiers and timestamps of messages: an encoded message is an opaque byte sequence, or a failure to encode.
- The message types, their validation rules and the type switch of `Enqueue`: a message is valid or not.
- Custom queues, closing the queue from outside, and callbacks that call `Enqueue` from the event loop on a full queue.
- Callbacks that panic when called by the event loop: the client has no recover there and the process ends.
- Durations: retry delays, the flush interval and the `Retry-After` header only decide how long a wait lasts.
- Overflow of the counts of a segment result: they are unbounded integers here.
