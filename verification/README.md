# An event bus, verified

The project models an in-memory event bus written in Go, with its worker-pool and AMQP extensions,
and proves what the bus promises about subscriptions, delivery, shutdown and settlement.

`dafny verify dfyconfig.toml` checks everything. The files follow the program's structure.

| file | what it models |
|---|---|
| `Wildcard.dfy` | patterns: splitting at dots, the segment grammar of `path.Match`, which patterns are wildcards |
| `Patterns.dfy` | the documented grammar of `path.Match` and what its terms stand for, against the parser and the matcher |
| `Index.dfy` | the two-level subscription table as a value, the flat list of live subscriptions it stands for, what dispatch reads from it, whole runs of subscribe, remove and close |
| `Slices.dfy` | Go slices: headers over a shared backing array, append, in-place deletion, copying |
| `Channels.dfy`, `Topics.dfy`, `Tracking.dfy`, `Middlewares.dfy`, `Bus.dfy` | `EventBus` as a class over those slices: both halves of the table, dispatch with its early return and fast path, receipts, the middleware chain, tracked subscriptions, Close |
| `AsyncProtocol.dfy` | asynchronous subscriptions as a protocol of goroutines, with Close and publishers |
| `AsyncCleanup.dfy`, `AsyncTracking.dfy`, `AsyncWait.dfy` | of that protocol: when cancellation cleans up, which torn-down subscriptions stay tracked, how long Unsubscribe waits |
| `AsyncDelivery.dfy` | of that protocol: whom a dispatch aims at, when a channel takes an event, what the receipts say |
| `PoolProtocol.dfy` | a pool subscription: forwarder, workers, two-Once teardown |
| `PoolDelivery.dfy` | of that: what becomes of an event on its way to a worker, and how often it is tried |
| `PublisherProtocol.dfy` | the MQ side of `Publisher`: enqueue and Close behind a read-write lock |
| `Enqueue.dfy` | of that: when an enqueue call queues its event, gives it to a fallback or drops it |
| `Backoff.dfy`, `Settlement.dfy` | the retry loops of `Consumer.handle` and `ConsumerPool.process`, and when they agree |
| `Attempts.dfy` | of those loops: what follows each attempt, by the handler's outcome and the classifier |
| `Listener.dfy` | `Listener.handle`: publish, record, then settle |
| `Publish.dfy` | publishing with confirms and retries; batch and asynchronous publishing |
| `Forwarding.dfy` | the forwarding goroutines of the subscriber against an abstract broker |
| `Books.dfy` | the broker's books against the settling calls it was sent |
| `Wrappers.dfy`, `Workers.dfy`, `Journals.dfy` | an option type; counting goroutines that have not exited; a record of effects |

A protocol is a state with an enabledness predicate and a step function. A goroutine that may take one
of several `select` branches is a choice between steps; a Once is its body by the statement it is about
to run, with the callers that wait for it; a wait group is a counter. The theorems hold of every run.
The classes keep a ghost flat list beside the real table; every method of `EventBus` says what becomes
of the list and of the table, and the lemmas of `Index` say how the two are related. The loops write
their effects to a journal, which is compared with a function of the inputs.

## Where the code differs from what is written about it

* bus.go:122 promises that a subscription is cleaned up when its parent context is cancelled. The
  watcher (bus.go:153-160) selects between the parent context and the subscription's own, which is
  derived from it. If it reaches its select after the cancellation, both are ready and it may take
  the branch that does nothing (`AsyncCleanup.LateWatcherLeaks` is such a run). The promise holds from
  a state on, in every continuation, if and only if the watcher waits in its select by then or has
  been woken there, or somebody has called Unsubscribe (`AsyncCleanup.CleanupIffCommitted`); and the
  subscription can be left behind, still listed and with its channel open, if and only if it is
  listed and none of these is so (`AsyncCleanup.LeakIffNotCommitted`). It then stays so until somebody
  calls Unsubscribe on it or Close (`AsyncCleanup.LeftBehind`).
* bus.go:94 says that an error from a middleware means nothing was dispatched. It fails exactly if all
  middlewares pass the event on and an error is raised behind an even number of middlewares that turn
  an error into success and success into an error, or none is raised and their number is odd; where
  there are none of those, exactly if one fails afterwards with only relaying ones before it
  (`Middlewares.ErrorAfterDispatch`, and `Middlewares.ErrorAfterDispatchHappens` for such a chain).
  Nor does the absence of an error mean that something was dispatched, since a middleware may end the
  event silently or hide an error (`Middlewares.ChainMeaning`).
* bus.go:162 tracks a subscription after its watcher has started, so a subscription that is torn
  down can be in the list of active ones (`AsyncTracking.LateTrackRun`). Exactly those are which were torn
  down before they were tracked and have not been taken by a Close call (`AsyncTracking.TornIsTrackedIff`);
  and from a state in which SubscribeAsync has not tracked it yet that can still happen, without a
  cancellation from there on, if and only if the context is cancelled already and the watcher has not
  taken the branch that does nothing (`AsyncTracking.LateIffCancelled`). A caller whose context is not
  cancelled before SubscribeAsync returns cannot meet it.
* The two retry loops agree for every handler if and only if the retry limit is not negative and the
  classifier sends a panic to the dead letter, or retries it with a limit of zero
  (`Settlement.LoopsAlwaysCorrespond`; `Settlement.LoopsCorrespond` handler by handler).
* The failed indices of batch and asynchronous publishing can differ when the context ends in between
  (`Publish.BatchAndAsyncDiffer`); `Publish.BatchAgreesWithAsync` gives the exact condition.
* The acknowledgement follows a complete record unless no error comes out of the chain although a
  middleware ended the event or dropped the collector, and the recorder accepts an empty report
  (`Listener.AckMeansCompleteRecord`, with an instance in `Listener.AckWithoutRecord`).

## Model

| member | source | states |
|---|---|---|
| Wildcard.IsWildcardPattern | wildcard.go:12-22 | a pattern is a wildcard exactly if it has a metacharacter and every segment is well formed |
| Wildcard.MatchSegments | wildcard.go:29-40 | the loop with its early returns decides segment-wise matching: same number of segments, each matched without error |
| Wildcard.ReceivesMeans | bus.go:280 | a subscription whose segments are all well formed receives what the segment matcher matches, any other one receives its own name only |
| Wildcard.JoinSplit | wildcard.go:16 | joining undoes splitting at dots |
| Wildcard.SplitJoin | wildcard.go:16 | splitting undoes joining of any non-empty list of dot-free segments |
| Wildcard.SplitInjective | wildcard.go:26 | two topics with the same segments are the same topic |
| Wildcard.ExactLookupAgreesWithMatcher | bus.go:203 | looking a pattern up by equality agrees with the segment matcher on all topics if and only if it has no metacharacter |
| Wildcard.WildcardNeverErrs | wildcard.go:34-36 | no segment of a pattern that counts as a wildcard makes the matcher return an error |
| Wildcard.MalformedClassIsExact | wildcard.go:8-11 | "[a.b]" has metacharacters and still counts as an exact topic: it receives itself only |
| Wildcard.StarSegment | bus.go:38-39 | a star segment matches every name without a slash |
| Patterns.PathMatchMeans | wildcard.go:34 | one segment is malformed exactly if the grammar of path.Match does not write it, and otherwise matches exactly the names that can be cut into parts which fit its terms one by one |
| Index.AddRefines | bus.go:274-296 | adding to the table keeps it the flat list grouped by topic, one group for each pattern |
| Index.RemoveRefines | bus.go:305-335 | removing from the table is removing one element from the flat list; no group is left empty, and no exact topic leaves the map |
| Index.DropMeans | bus.go:305-335 | a removal takes away exactly the live subscription of that topic on that channel, if there is one |
| Index.ListsAscend | bus.go:274-296 | inside each list of the table the ids ascend and no channel occurs twice |
| Index.TargetsAreReceivers | bus.go:198-238 | what dispatch gathers through the two-level table is, as a multiset, the flat list filtered by the matcher |
| Index.TargetsDistinct | bus.go:198-238 | dispatch reaches exactly the live matching subscriptions, each id and each channel once |
| Index.RunRefines | bus.go:111-117 | after any sequence of subscribe, remove and close the table holds exactly the live subscriptions of the flat list |
| Index.RunDispatch | bus.go:198-238 | over any such run dispatch reaches each live matching subscription once |
| Slices.Append | bus.go:284 | the result shows one more element and the header it came from shows what it did, whether the list moved to a new array or not |
| Slices.RemoveAt | bus.go:314-334 | in-place deletion keeps the order of the others; a header taken before shows the shifted elements and the last one twice |
| Slices.Gather | bus.go:228-231 | the target list is both lists in order, in an array of its own |
| Channels.EventChan.SendSafe | bus.go:357-370 | an event is queued at the tail exactly if the channel is open and holds fewer than 64; otherwise nothing changes |
| Channels.Deliver | bus.go:241-259 | one send, and one receipt that tells queued from dropped |
| Channels.MakePlan | bus.go:203-232 | the early return, the single-subscriber fast path and the copied list stand for the same sequence of targets |
| Channels.DeliverAll | bus.go:234-236 | every target has accepted or dropped the event by its own state, with one receipt each in order |
| Topics.ExactTopics.Add | bus.go:294 | the list of the topic grows by one, every other list stays |
| Topics.ExactTopics.Remove | bus.go:328-334 | the first subscription on the channel leaves its list in place; the emptied list stays in the map |
| Topics.ExactTopics.CloseAll | bus.go:181-186 | every listed channel is closed and the map is empty, in any order of topics |
| Topics.WildTopics.Add | bus.go:280-292 | the group of the pattern grows by one, or a new group follows the others |
| Topics.WildTopics.Matching | bus.go:210-218 | the matching groups' subscriptions, in group order |
| Topics.WildTopics.Remove | bus.go:309-326 | the first subscription on the channel leaves its group in place; an emptied group is taken out |
| Topics.WildTopics.CloseAll | bus.go:187-192 | every channel of every group is closed and no group is left |
| Tracking.ActiveSubs.Track | bus.go:337-341 | the list of tracked subscriptions grows by one at its end |
| Tracking.ActiveSubs.Untrack | bus.go:343-352 | the first occurrence leaves the list in place; one that is not tracked is no error |
| Tracking.SansOnce | bus.go:343-352 | what has been untracked once is no longer tracked |
| Middlewares.ChainMeaning | bus.go:261-267 | for any middlewares that call next at most once: the event is dispatched exactly if all pass it on, with the collector exactly if all also keep the context, and whether an error comes out is settled by the first one that does not listen to the rest and by the number of those before it that flip |
| Middlewares.BehavioursMean | bus.go:261-267 | in order of registration, each middleware sees what the one before it passed on, and none comes after one that ends the event |
| Middlewares.ArrivalMeaning | bus.go:99-104 | the event that is dispatched is the one published, or the one the last middleware passed on |
| Middlewares.ErrorMeans | bus.go:261-267 | without flips an error comes out exactly if one ends the event with an error, or fails after passing it on, behind relaying ones |
| Middlewares.ErrorAfterDispatch | bus.go:94 | an error comes out of an event that was dispatched exactly if all pass it on and the one that decides fails behind an even number of flips, or none decides and the number is odd; without flips, exactly if one fails behind relaying ones |
| Middlewares.ErrorAfterDispatchHappens | bus.go:94 | for every event there is a chain that dispatches it and returns an error |
| Bus.EventBus.constructor | bus.go:61-67 | a new bus is empty and valid |
| Bus.EventBus.Use | bus.go:70-75 | the middlewares are appended, the chain is rebuilt so that the first is outermost, the subscriptions stay |
| Bus.EventBus.AddChannel | bus.go:274-296 | the table and the flat list grow by one subscription with the next id, and the table still stands for the list |
| Bus.EventBus.Subscribe | bus.go:111-117 | a fresh, open, empty channel becomes the newest live subscription |
| Bus.EventBus.RemoveChannel | bus.go:300-335 | the shared arrays are edited in place, and table and flat list lose the same subscription |
| Bus.EventBus.SubscribeAsync | bus.go:123-164 | the new subscription is live and tracked, and the tracked ones stay distinct |
| Bus.EventBus.Unsubscribe | bus.go:401-410 | the first call removes, closes and untracks; a later one changes nothing |
| Bus.EventBus.Close | bus.go:167-194 | every tracked subscription is torn down although each untracks itself during the loop, every channel live before is closed, and the table is empty |
| Bus.EventBus.TearDownAll | bus.go:173-175 | the loop over the swapped-out list reaches each of its subscriptions, and what it does not remove stays live |
| Bus.EventBus.Dispatch | bus.go:198-238 | every path delivers to the exact subscriptions and then to the matching groups, and reports them in that order |
| Bus.EventBus.DispatchOvertaken | bus.go:228-236 | channels removed between the lock and the delivery change neither the targets nor the receipts of a dispatch |
| Bus.EventBus.Handle | bus.go:261-267 | a handler of the chain delivers the event that arrives at dispatch, leaves its receipts if the collector arrives too, and errs as its middlewares make it |
| Bus.EventBus.PublishReport | bus.go:99-104 | every live subscription that receives what the last middleware passes on has it if its channel was open and held fewer than 64 events, and nothing else changes in any channel; if the collector got through the report has one receipt for each of them, queued exactly where it was, and otherwise it is empty; an error comes out as the middlewares decide |
| AsyncProtocol.RunInv | bus.go:123-164 | the invariant of all subscriptions, publishers, callers and Close calls holds in every state of every run |
| AsyncProtocol.AfterUnsubscribe | bus.go:401-410 | once any Unsubscribe call has returned, and for the rest of the run, all workers have exited, the channel is closed, unchanged and out of the index, no later snapshot has it, and an older one can only have its event dropped |
| AsyncProtocol.ChannelAccounting | bus.go:357-376 | for each channel, the events whose receipts say queued are those received followed by those buffered, and at most 64 are buffered |
| AsyncDelivery.DeliverMeans | bus.go:357-370 | of every run: a delivery leaves one receipt, which says queued exactly if the channel was open and held fewer than 64 events; the event is then its newest, and otherwise the channel is as it was |
| AsyncDelivery.ReceiptMeans | bus.go:241-259 | of every run and each receipt in its log: it says queued exactly if at that delivery the channel was open and fewer than 64 of the events queued on it had not been received |
| AsyncDelivery.ChannelMoves | bus.go:372-376 | of every run: between deliveries a channel is closed only by its teardown, its owner or a sweep of Close, and gives its events up only to a receiver, oldest first |
| AsyncDelivery.AimsAt | bus.go:198-232 | of every run: a dispatch aims at a subscription made before exactly if that receives the event and no teardown, RemoveChannel or Close has let go of it since |
| AsyncDelivery.ReceiptsInOrder | bus.go:234-236 | of every run: each dispatch has left one receipt for each target it has passed, in their order and for its event |
| AsyncProtocol.CloseReachesTracked | bus.go:167-175 | when Close has left its loop, every subscription tracked at its swap is torn down, whatever ran in between |
| AsyncProtocol.CloseSweepsRest | bus.go:177-192 | when Close releases the lock every channel still listed is closed and the index is empty |
| AsyncProtocol.UnsubscribeNeverStuck | bus.go:401-410 | while an Unsubscribe call has not returned, a step of its subscription or of a Close call is possible |
| AsyncProtocol.CloseNeverStuck | bus.go:167-194 | while a Close call has not returned, a step of a Close call or of the subscription it waits for is possible |
| AsyncCleanup.CleanupIffCommitted | bus.go:119-122 | of every run: in all continuations that come to rest with the context cancelled the subscription is torn down, if and only if its watcher waits in its select or was woken there, or somebody has called Unsubscribe |
| AsyncCleanup.LeakIffNotCommitted | bus.go:153-160 | of every run: some continuation leaves the subscription behind, at rest with its context cancelled, listed and its channel open, if and only if it is listed and not so committed |
| AsyncCleanup.LeftBehind | bus.go:153-160 | of every run: what has been left behind stays so, at rest and listed with its channel open, through every step that is neither a call of Unsubscribe on it nor the start or the lock of a Close call |
| AsyncCleanup.LateWatcherLeaks | bus.go:153-160 | a run in which that happens |
| AsyncTracking.LateNeedsCancel | bus.go:152-162 | of every run: a subscription is torn down before it is tracked only if its context was cancelled by then, and by its own watcher |
| AsyncTracking.LateIffCancelled | bus.go:152-162 | of every run that has not tracked it yet: that can still happen without a further cancellation if and only if the context is cancelled and the watcher has not taken the other branch |
| AsyncTracking.LateMeans | bus.go:337-341 | of every run: the model's mark says exactly that the subscription was torn down at a moment before it was tracked |
| AsyncTracking.LiveIsTracked | bus.go:337-341 | of every run: a tracked subscription that has not been torn down is among the tracked ones or has been taken by a Close call |
| AsyncTracking.TornIsTrackedIff | bus.go:343-352 | of every run: a torn-down subscription is among the tracked ones if and only if it was torn down before it was tracked and no Close call has taken it |
| AsyncTracking.LateTrackRun | bus.go:152-162 | a run that ends so |
| AsyncWait.WaitBound | bus.go:401-410 | of every run: once its own context is done, a subscription's goroutines and callers take at most its work's worth of steps, plus two for each event delivered to it and six for each new call |
| AsyncWait.WaitEnds | bus.go:401-410 | and when they can take none, with the lock free, every Unsubscribe call has returned |
| PoolProtocol.ReachableInv | ext/pool/pool.go:190-273 | the invariant of forwarder, workers, teardown and callers holds in every reachable state |
| PoolProtocol.TeardownOnce | ext/pool/pool.go:256-273 | the teardown body runs at most once, and the wait group at zero means it is complete |
| PoolProtocol.AfterUnsubscribe | ext/pool/pool.go:256-273 | once any Unsubscribe call has returned, forwarder and workers are gone, the channel is removed and closed, and nothing enters channel or queue any more |
| PoolProtocol.NeverStuck | ext/pool/pool.go:186-189 | after any of the three reasons to stop, or a call of Unsubscribe, there is a step to take until everything is released and every caller is back |
| PoolProtocol.Progress | ext/pool/pool.go:88-101 | every step of the subscription's own goroutines and callers brings the remaining work down, even if a worker's select keeps preferring the queue |
| PoolProtocol.EnvironmentAddsNothing | ext/pool/pool.go:266-273 | with the forwarder out of its loop, publishers, contexts and the bus add no work |
| PoolProtocol.StopTerminates | ext/pool/pool.go:171-174 | from then on only boundedly many steps remain, and when none is left everything is released |
| PoolProtocol.SilentBound | ext/pool/pool.go:88-101 | at any time, stretches without publishers, cancellations and new calls are bounded by the work at their start |
| PoolProtocol.StopAbandonsQueue | ext/pool/pool.go:186-189 | a run that stops with an event still in the queue |
| PoolDelivery.EventsInOrder | ext/pool/pool.go:227-237 | of every run: the events that entered the channel are moved on in order or still in it, those that entered the queue are taken by a worker in order or still in it, and between the two is at most the one in the forwarder's hand |
| PoolDelivery.PassMeans | ext/pool/pool.go:161-169 | of every run: an event is refused only if the pool has been stopped or the queue has no room, and is queued if neither is so |
| PoolDelivery.TriesBounded | ext/pool/pool.go:112-158 | of every run: a worker calls the handler for one event at most maxRetries + 1 times, and may call it again exactly while it has called it less often |
| PublisherProtocol.NoMisuse | ext/amqp/publisher.go:268-296 | no send or second close hits the closed queue, no Add comes after Close began to wait, and the wait group counts the worker and the live fallbacks |
| PublisherProtocol.Conservation | ext/amqp/publisher.go:271-318 | the event of each decided call is in exactly one place, none occurs twice, and the queue is served in order |
| Enqueue.EnqueueFate | ext/amqp/publisher.go:271-296 | of every run: an event is dropped exactly if its call found the publisher closed, or the queue with 1000 events and then 100 tokens held; it is in the queue's line exactly if the call found the publisher open and fewer than 1000 queued; and it goes to a fallback exactly if the call found the queue full and took a token |
| PublisherProtocol.AfterClose | ext/amqp/publisher.go:253-266 | when any Close call has returned, the queue is empty, nothing is in flight, and nothing is queued or sent any more |
| PublisherProtocol.NeverStuck | ext/amqp/publisher.go:253-296 | while an enqueue or Close call has not returned, some step is possible |
| PublisherProtocol.WaitBound | ext/amqp/publisher.go:263 | the wait of Close ends after at most as many steps as its work at the start, whatever the callers do |
| Backoff.NoOverflowIffLongestFits | ext/amqp/consumer.go:217 | no sleep overflows 64 bits if and only if 1024 times the base does not |
| Backoff.SleepGrows | ext/amqp/amqpclt/publish.go:133-138 | without overflow the sleeps never get shorter |
| Backoff.TotalClosedForm | ext/pool/pool.go:149 | the sleeps of n retries add up to b(2^n - 1), and past eleven to 2047b + 1024b(n - 11) |
| Settlement.AfterAttempt | ext/amqp/consumer.go:170-227 | after an attempt the loop stops exactly where its specification says, with the effects it says |
| Settlement.ConsumerHandle | ext/amqp/consumer.go:146-229 | the loop terminates and makes the calls, sleeps and settlement of its specification |
| Settlement.RunAfterCommit | ext/amqp/consumer.go:231-241 | every hook that is set is called once, in order |
| Attempts.HooksMean | ext/amqp/consumer.go:231-241 | in the log exactly the hooks that are set appear, once each and in order |
| Attempts.ConsumerAttempt | ext/amqp/consumer.go:158-228 | what follows each call of the handler, from its outcome, the context, the limit and the classifier, a nil one included: the hooks and Ack, Nack with or without requeue, or the sleep and the next attempt |
| Attempts.PoolAttempt | ext/pool/pool.go:112-158 | the same for the pool: nothing more, the dead letter, or the sleep and the next attempt or the dead letter |
| Attempts.DefaultLosesNothing | retry.go:28-33 | with a nil classifier the delivery is acknowledged exactly if the last attempt succeeded, and the pool dead-letters exactly if it did not |
| Settlement.SettledExactlyOnce | ext/amqp/consumer.go:145-229 | one settlement, the last effect: Ack exactly if the last attempt succeeded or was dropped, requeue exactly if the context was seen done, and at most max(MaxRetries, 0) + 1 handler calls |
| Settlement.RoundsTakeTotal | ext/amqp/consumer.go:217 | the sleeps of n retries take the closed total where nothing overflows |
| Settlement.PoolProcess | ext/pool/pool.go:104-159 | the loop makes the calls, sleeps and dead letter of its specification, and none of them for a negative limit |
| Settlement.LoopsCorrespond | ext/pool/pool.go:112-158 | without cancellation both loops do the same work and reach corresponding ends if and only if the limit is not negative and every panic would end the consumer's loop in the dead letter too |
| Settlement.LoopsAlwaysCorrespond | ext/amqp/consumer.go:158-228 | they do so for every handler if and only if the limit is not negative and the classifier sends a panic to the dead letter, or retries it with a limit of zero |
| Listener.Handle | ext/amqp/publisher.go:100-147 | one delivery is published under its id or a generated one to the live matching subscriptions, and recorded and settled by the outcome; under a chain that passes the collector on and a configured recorder, an Ack comes right after the accepted record of a report with one receipt for every live matching subscription |
| Listener.SettledOnceAndLast | ext/amqp/publisher.go:100-147 | exactly one Ack or Nack, after everything else |
| Listener.AckFollowsRecord | delivery.go:46-47 | Ack exactly if publishing succeeded and the recorder, if there is one, accepted the receipts before; otherwise the delivery is requeued |
| Listener.AckMeansCompleteRecord | bus.go:97-98 | every Ack follows an accepted complete record if and only if all middlewares pass the event on with the collector, or an error comes out, or the recorder refuses empty reports |
| Listener.AckWithoutRecord | bus.go:97-98 | for every event with subscribers there is a chain and a recorder with which the Ack follows an empty record |
| Listener.ReportIsComplete | bus.go:90-95 | the complete report has one receipt for every live subscription matching the event that arrives, none twice, queued exactly where the channel could take it |
| Publish.PublishWithRetry | ext/amqp/amqpclt/publish.go:97-131 | the loop ends with the outcome and the sends and sleeps of its specification |
| Publish.SuccessIffAcked | ext/amqp/amqpclt/publish.go:97-131 | nil is returned if and only if some attempt within the limit was acked and every earlier one was retried |
| Publish.SendAttempt | ext/amqp/amqpclt/publish.go:97-131 | what follows each send, from the broker's answer, the limit and the context: the sleep and the next send, or the end with its result |
| Publish.SendsAreBounded | ext/amqp/amqpclt/publish.go:99 | at most MaxRetries + 1 sends, and none after the acked one |
| Publish.PublishOne | ext/amqp/amqpclt/publish.go:70-94 | a message that cannot be encoded fails without being sent |
| Publish.PublishBatch | ext/amqp/amqpclt/publish.go:168-181 | the indices returned are those of the messages that failed, strictly increasing, and every message is tried |
| Publish.PublishAsync | ext/amqp/amqpclt/publish.go:192-215 | one report for each message tried, one for the message at which the context was done, then the channel is closed |
| Publish.AsyncFailures | ext/amqp/amqpclt/publish.go:200-212 | the failures reported are those before the stop, and the stop |
| Publish.BatchAgreesWithAsync | ext/amqp/amqpclt/publish.go:167-215 | both forms report the same failures if and only if the context did not stop the asynchronous one, or only at a message that fails and is the last to fail |
| Publish.BatchAndAsyncDiffer | ext/amqp/amqpclt/publish.go:200-205 | options, a message and a context with which only the asynchronous form reports a failure |
| Forwarding.NothingIsLost | ext/amqp/amqpclt/subscribe.go:170-174 | the broker's books balance in every reachable state, and after the channel is closed everything unsettled is ready again |
| Books.BooksFollowCalls | ext/amqp/amqpclt/subscribe.go:203-208 | of every run: while the channel is open the acknowledged messages are exactly those for which Ack was called, and the dead ones those refused or nacked without requeue; a call after the channel was closed adds nothing |
| Books.TakenAsPushed | ext/amqp/amqpclt/subscribe.go:184-190 | of every run: the forwarder takes the messages in the order in which the broker pushed them |
| Forwarding.SettledInOrder | ext/amqp/amqpclt/subscribe.go:175-220 | whatever the second stage is, attempt by attempt for a Consumer, by what the bus reported for a Listener: what cannot be decoded is refused, what can is settled once and in order, and at most two taken messages are unsettled |
| Forwarding.SettledByConsumer | ext/amqp/consumer.go:103-127 | of every run with a Consumer as second stage: each settled message is settled as by one complete run of Consumer.handle on what its handler returned, with exactly one settlement, requeued only if the context is done |
| Forwarding.SettledByListener | ext/amqp/publisher.go:82-94 | of every run with a Listener as second stage: each settled message is settled by the last call of Listener.handle on what the bus reported, no other call settles, and under a recorder an Ack follows the accepted record of that report |
| Forwarding.OnlyLeftoverUnsettled | ext/amqp/amqpclt/subscribe.go:210-215 | when both stages have ended, only the message in the forwarder's hand at the cancellation can be unsettled, and closing the channel makes it ready again |
| Forwarding.AutoAcksWhatItPassed | ext/amqp/amqpclt/subscribe.go:226-258 | what is acknowledged is what was passed on, in order; the one that could not be passed on is requeued and is the last |
| Forwarding.NeverStuck | ext/amqp/consumer.go:114-126 | after cancellation both stages can go on until both have ended |
| Forwarding.Progress | ext/amqp/consumer.go:208-227 | after cancellation every step of the two stages brings the remaining work down, since an attempt that fails is then the last |
| Forwarding.StopBound | ext/amqp/amqpclt/subscribe.go:184-217 | from the cancellation on, the two stages take at most as many steps as the work then, plus four for each message the broker still pushes |

## Left out

- `path.Match` is taken by its documented grammar; where a class could match a slash the library's own search may answer differently, and characters are not decoded from UTF-8.
- The RabbitMQ connection, exchange and queue set-up, quality of service and dead-letter exchange (dlx.go): the broker is an account of ready, unacknowledged, acknowledged and dead messages.
- JSON, payload types and decoding: whether a message can be encoded or decoded is part of the input.
- Wall-clock time, timeouts and the receipts' time stamps: a sleep is its length, and whether the context ends in it is part of the input.
- Logging, event id generation (a parameter), payloads and sources of events, and the "sub-" prefix of subscription ids.
- Local, Distributed and MQOnly of Publisher: an enqueue and a publish one after the other.
- Manager, Registry, and the `started` flag of Consumer.Start and Consumer.Stop: straight sequencing.
- Panics in middlewares, classifiers, recorders, hooks, FailHandler and DeadLetterFunc; in particular the second call of a DeadLetterFunc that panics.
- A FailHandler's calls: an event the pool refuses is only no longer in the queue.
- Handlers that unsubscribe or close their own subscription or bus: they wait for themselves.
- MaxRetries at the largest integer, where MaxRetries + 1 wraps round.
- Middlewares that call next more than once or concurrently.
- Middlewares of different concrete handler types, for which storing the chain would panic.
- Middlewares.ChainMeaning: what a middleware does depends on the event alone, not on what it has seen before or on the state of the bus.
- Bus.EventBus.Dispatch: in the class every method is one critical section; interleavings are the subject of the protocols, except for the removals of DispatchOvertaken.
- Bus.EventBus.Close: the workers a tracked subscription waits for are in AsyncProtocol, not in the class.
- AsyncProtocol.RunInv: the index is its flat list; that the table stands for the flat list is the subject of Index and Bus.
- PoolProtocol.AfterUnsubscribe: queued events may be abandoned; the model makes no promise about them, as the code makes none.
- Pool subscriptions are not tracked by the bus, so Close of the bus does not wait for pool workers.
- Forwarding.SettledByConsumer: the hooks after a commit, which come before the Ack, are in Settlement only.
