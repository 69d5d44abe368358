# Verified model of the Tendrl Go client

This project models the concurrent core of the Tendrl Go client and proves properties of it
with Dafny. `dafny verify dfyconfig.toml` checks everything.

## What is modelled

**The store-and-forward pipeline.** `Pipeline.dfy` is a state machine of publishers, the queue
consumer, the offline retrier, cleanup, connectivity updates and `Stop`, interleaved at the
level of channel operations, storage transactions and HTTP attempts. Server replies, clock
readings, `select` choices, failing transactions and record keys are chosen freely by each
step. `PipelineInvariant.dfy` and `PipelineSteps.dfy` show that every step keeps the invariant;
`PipelineTheorems.dfy` (conservation, order, shutdown), `PipelineOnePlace.dfy` (when each
message is recorded in one place), `PipelineLoss.dfy` (when a message is lost, when a record
leaves storage) and `OfflineTrap.dfy` hold the results about whole runs;
`PipelineCounterexamples.dfy` has the runs that refute two stronger claims.

**The same operations as code.** `Client.dfy` has the client object and its loops:
`sendMessages`, `Publish`, `processQueue` with its reused batch buffer and shutdown drain,
`flushBatch`, both storing loops, and the offline retry cycle. They are proved against the
definitions in `Sending.dfy`, `Messages.dfy`, `Publishing.dfy`, `Consumer.dfy`,
`FailedBatches.dfy` and `RetryCycle.dfy`; `ConsumerLaws.dfy` and `RetryDelivery.dfy` say what
those definitions mean record by record and turn by turn. `Storage.dfy` is the key-ordered
bucket, `Connectivity.dfy` the connectivity record, `BatchSizing.dfy` the adaptive batch size
over the reals, `Config.dfy` the configuration that supplies the loops' preconditions.
`Refinement.dfy`, `PublishRefinement.dfy`, `ConsumerRefinement.dfy` and `RetryRefinement.dfy`
tie the two views together: a call to `Publish`, all that `processQueue` does from the opening
of a client on, and all of `retryOfflineMessages`, are runs of the machine's steps that end in
the corresponding state with the corresponding history of what was handed over and delivered.
`RetryBudget.dfy` is a machine of the retrier borrowing `MaxRetries` and the HTTP timeout while
other senders read them.

**The inbound side.** `Poller.dfy` is the check-rate protocol between rate setters and the
poller; `StateTables.dfy` and `StateWatch.dfy` are state-table polling, as code over shared
tables and as a machine of concurrent polls; `Routes.dfy` is routing and re-entrant dispatch.

**Shutdown.** `Shutdown.dfy` is the `WaitGroup`, the `done` channel and the closing of storage.

## What the proofs found

- Failed batches are stored under a timestamp of one-second resolution (the `date-time` of
  section 5.6 of RFC 3339 without the optional fraction). Messages stored in the same second
  replace one another, and a record stored over one that is being retried is deleted unsent
  (`SameSecondLosesAMessage`). A batch survives whole exactly when its keys are pairwise
  distinct; with fresh keys no record leaves storage unsent and unexpired, and nothing is lost
  when every failed message gets stored.
- An accepted message is always recorded somewhere, but not always in one place only: besides
  the time between a 2xx and the delete, a cleanup can purge a record as expired while a retry
  of it is in flight and then delivered (`CleanupRacesRetry`). Each is in one place exactly when
  every accepted retry still finds the records it delivers (`OnePlaceIff`).
- A client that goes offline with nothing left in memory never retries what it has stored if
  connectivity checks are off and no message handler is registered, and only then
  (`DeliversIffProbed`).
- A retry sends the stored JSON text as a string, whatever the data was; the comment at
  tendrl/client_publishing.go:13 says the backend expects an object (`RetryErases`).
- The comment at tendrl/client_offline.go:32 speaks of at most 50 messages per cycle; the code
  sends at most 250, in five batches of 50. The model follows the code.
- Intervals above about 292 years wrap around and give `time.NewTicker` a negative interval.

## Model

| member | source | states |
|---|---|---|
| `PipelineSteps.InvKept` | tendrl/client_queue.go:51-158 | every step of publisher, consumer, retrier, cleanup or environment keeps the order, drain, call and bookkeeping invariants |
| `PipelineSteps.InvAlong` | tendrl/client_queue.go:51-158 | so does every run |
| `PipelineTheorems.Conservation` | tendrl/client_publishing.go:73-112 | over every run of a client opened on any store, a message is accepted if and only if it is held, stored, delivered, expired or lost, and it is in two of these if and only if it was delivered and its record is still stored or was removed while a retry held a copy; still stored means between a 2xx and its delete, or after that delete failed |
| `PipelineOnePlace.TwiceIsExact` | tendrl/client_offline.go:81-93 | a step makes a further message both delivered and gone undelivered if and only if it is the acceptance of a retry that misses the record of a message it delivers |
| `PipelineOnePlace.OnePlaceIff` | tendrl/client_offline.go:39-93 | over every run from any store each accepted message is recorded in exactly one place, but for delivered ones whose record is still stored, if and only if every accepted retry found the records of the messages it delivered |
| `PipelineTheorems.FirstInFirstOut` | tendrl/client_queue.go:53-122 | from any store and for every schedule, what was enqueued is the batches dealt with, the batch in hand and the queue, in order; after the drain exactly the messages enqueued before it found the queue empty have been dealt with, and each was sent, stored, expired or lost |
| `PipelineTheorems.HandedHaveLeft` | tendrl/client_queue.go:132-158 | a message in a batch the consumer is done with is in storage or in a history |
| `PipelineTheorems.DrainedOwesNothing` | tendrl/client_queue.go:104-122 | once the consumer has exited, what remains in the queue was enqueued after the drain ended |
| `PipelineLoss.LossIsExact` | tendrl/client_queue.go:143-158 | a step loses a message exactly when a failed message is not stored (no storage, unencodable, failed store), an unsent record is overwritten, or a delete hits a key stored again since it was copied |
| `PipelineLoss.NothingLostIff` | tendrl/client_queue.go:127-158 | a run from any store loses nothing if and only if each of its steps is free of those events |
| `PipelineLoss.FreshKeysLoseNothing` | tendrl/client_publishing.go:73-112 | when every store writes under an unused key and the consumer stores every message it fails to send, the lost set stays empty over every run from any store, and every accepted message is held, stored, delivered or expired |
| `PipelineLoss.RemovalIsExact` | tendrl/client_offline.go:39-93 | a step removes or replaces only records answered 2xx or expired at the reading it used, if and only if the keys it stores under hold nothing unsent and the keys it deletes hold what was copied |
| `PipelineLoss.RemovesOnlySpentIff` | tendrl/client_offline.go:39-93 | every step of a run does so if and only if every step of it meets that condition |
| `PipelineLoss.FreshKeysRemoveOnlySpent` | tendrl/storage.go:82-143 | unused keys alone are enough for that, over every run from any store, whatever fails to be encoded or stored |
| `PipelineCounterexamples.SameSecondLosesAMessage` | tendrl/client_queue.go:77-82 | with keys that are a function of the clock reading, some run deletes an accepted message unsent and unexpired |
| `PipelineCounterexamples.CleanupRacesRetry` | tendrl/client_queue.go:89-91 | with fresh keys, every transaction committing and readings a second apart, a given run leaves a message both expired and delivered |
| `OfflineTrap.TrapStep` | tendrl/client_offline.go:28-30 | offline, with nothing in memory, checks and message handlers off, every step but a direct send stays there and delivers nothing |
| `OfflineTrap.TrapIsClosed` | tendrl/client_publishing.go:78-91 | so does every run: stored messages never go out |
| `OfflineTrap.TrapIsReachable` | tendrl/client_queue.go:67-87 | one failed send leads there with an unexpired message stored |
| `OfflineTrap.DeliversIffProbed` | tendrl/client_connectivity.go:36-67 | from there, a live record with fewer than fifty keys before it can come to be delivered without a direct send if and only if connectivity checks are on or a message handler is registered |
| `Client.Client.constructor` | tendrl/client.go:94-137 | a usable configuration gives a client that meets every loop's precondition, online at first, with storage only if managed and enabled |
| `Client.Client.SendMessages` | tendrl/client_publishing.go:123-237 | an empty batch succeeds unsent; an unencodable batch or bad URL fails without an attempt; otherwise, with MaxRetries changing between any two reads, at most max+1 attempts, ended and paused exactly as the replies and readings say, success exactly when the last was accepted, and every attempt's connectivity report in order |
| `Client.Client.RetryLoop` | tendrl/client_publishing.go:171-236 | the loop's part of that, for any value read for MaxRetries at each test |
| `Client.Client.TryOnce` | tendrl/client_publishing.go:173-234 | one attempt: a missing reply reports offline and a 2xx online; a 429, 5xx or missing reply is tried again when retries are left, any other reply is not |
| `Sending.AnswersDecide` | tendrl/client_publishing.go:172-234 | after k replies of 429, 5xx or none, with MaxRetries undisturbed: a 2xx within the budget is success and any other status failure, at attempt k + 1, and using up the budget is failure; with the seconds slept |
| `Sending.TryByReplies` | tendrl/client_publishing.go:172-234 | the same for every flush and heartbeat, and failure without an attempt for what cannot be sent |
| `Sending.ReadingsDecide` | tendrl/client_publishing.go:172-228 | with MaxRetries changing, an attempt is followed by another if and only if its reply was 429, 5xx or none and both next readings allow it |
| `Sending.RetryByReplies` | tendrl/client_offline.go:105-122 | an offline retry succeeds on a 2xx at once, or on a 2xx after one 429, 5xx or missing reply, and makes its second attempt only then |
| `Sending.ReportsByReplies` | tendrl/client_publishing.go:174-194 | an attempt without a response reports offline, a 2xx online, and other replies nothing |
| `Sending.OneReportEach` | tendrl/client_publishing.go:174-194 | and there is exactly one report for each of the former two |
| `Sending.LastReport` | tendrl/client_connectivity.go:70-85 | what is believed afterwards is what the last of those attempts said |
| `Sending.NeededStopsAtFirst` | tendrl/client_publishing.go:172-234 | an undisturbed send stops at the first reply that is final or out of budget, and is accepted exactly if some attempt within the budget is and all earlier ones invite another |
| `Sending.FirstStopIsNeeded` | tendrl/client_publishing.go:172-234 | an attempt that ends the loop, after attempts that all invited another, is the last one needed |
| `Sending.OutcomeIsUnique` | tendrl/client_publishing.go:172-234 | the replies and the values MaxRetries is read as determine the result, the attempts and the time slept |
| `Sending.StopInAttempt` | tendrl/client_publishing.go:193-233 | leaving the loop inside an attempt gives the stated outcome |
| `Sending.StopAtHead` | tendrl/client_publishing.go:172 | so does leaving it at its head, when the limit was lowered during a pause |
| `Sending.BackoffIsTriangular` | tendrl/client_publishing.go:180-182 | n pauses sum to n(n+1)/2 seconds |
| `Client.Client.CheckConnectivity` | tendrl/client_connectivity.go:36-67 | a probe reports online exactly for a 2xx or 3xx |
| `Client.Client.StoreFailedBatch` | tendrl/client_queue.go:143-158 | the bucket becomes what storing the encodable messages one by one makes of it, where any store may fail; nothing happens without storage |
| `Client.Client.StoreInline` | tendrl/client_queue.go:69-85 | the ticker's loop arrives at the same bucket |
| `Client.Client.FlushBatch` | tendrl/client_queue.go:132-139 | a nonempty batch goes to the sender once, and is stored exactly when the send fails; nothing is reported but its attempts |
| `Client.Client.TickFlush` | tendrl/client_queue.go:67-87 | the ticker's branch meets FlushBatch's contract |
| `FailedBatches.StoreOneMore` | tendrl/client_queue.go:147-156 | each encodable message whose store commits updates the bucket at its key and nowhere else |
| `FailedBatches.Survivors` | tendrl/client_queue.go:143-158 | afterwards each key holds the last message stored under it, with its tags, and every other key what it held |
| `FailedBatches.StoredBatch` | tendrl/client_queue.go:143-158 | under each key the bucket ends with the data text, tags and hour to live of the last encodable message whose store under it committed, or with what it held |
| `FailedBatches.WrittenKeys` | tendrl/client_queue.go:147-156 | the bucket's keys afterwards are those before and those written |
| `FailedBatches.OneKeyEach` | tendrl/client_queue.go:147-156 | there are as many keys written as messages stored if and only if their stamps are pairwise distinct |
| `FailedBatches.LastUnlessShared` | tendrl/client_queue.go:147-156 | every stored message is the last one stored under its key if and only if their stamps are pairwise distinct |
| `FailedBatches.GrowsByOneEach` | tendrl/client_queue.go:147-156 | the bucket grows by one record per stored message if and only if their stamps are pairwise distinct and new to the bucket |
| `FailedBatches.SurvivesWholeIff` | tendrl/client_queue.go:143-158 | a batch survives whole, the bucket holding each stored message's record under its key as the last one put there, if and only if the stamps are pairwise distinct; it then grows by one record each if and only if they are also new; other keys keep what they held |
| `FailedBatches.AtMostOnePerSecond` | tendrl/client_queue.go:156 | under one-second keys and a non-decreasing clock at most one record per second survives |
| `Client.Client.Publish` | tendrl/client_publishing.go:46-113 | headless or waiting: sent alone at once; offline with storage, or full with storage: the data's text and tags stored for an hour and nothing queued; room: queued last; full without storage: refused with nothing changed; with the result of each |
| `PublishRefinement.PublishRefines` | tendrl/client_publishing.go:77-112 | each such call is a run of the machine's publish steps, from and to corresponding states, and returns no error exactly when the machine accepts the message |
| `PublishRefinement.DirectRefines` | tendrl/client_publishing.go:73-75 | a call that awaits its response is the machine's direct send |
| `Client.Client.SendNow` | tendrl/client_publishing.go:73-75 | a direct publish sends the message alone and succeeds exactly when an attempt within the budget is accepted |
| `Client.Client.StoreDirect` | tendrl/client_publishing.go:80-90 | direct storage puts the caller's data and tags under the new key, and fails when the data cannot be encoded or the transaction fails |
| `Consumer.Buffer.Append` | tendrl/client_queue.go:60 | appending adds the message last, in the same backing array or a fresh one |
| `Consumer.Buffer.Clear` | tendrl/client_queue.go:64 | batch[:0] empties the batch |
| `Client.Client.Offer` | tendrl/client_publishing.go:94-97 | of the messages offered the queue takes those it has room for, in order |
| `Client.Client.TakeNext` | tendrl/client_queue.go:59-65 | a receive moves the first queued message to the end of the batch, and flushes exactly when the batch has reached the size computed from the metrics |
| `Client.Client.ReceiveTurn` | tendrl/client_queue.go:59-65 | with the arrivals before it, a receive leaves the client as Turned says; on an empty queue it waits |
| `Client.Client.TickSweep` | tendrl/client_queue.go:66-91 | the first part of a tick: flush what is in hand, then remove exactly the records whose time has passed, if there is storage and the transaction commits |
| `Client.Client.TickBeat` | tendrl/client_queue.go:93-102 | then it sends a heartbeat if they are on, the client believes it is online and the interval has passed, and restarts the interval only if it got through |
| `Client.Client.TickTurn` | tendrl/client_queue.go:67-102 | with the arrivals before it, a tick leaves the client as Turned says |
| `Client.Client.OneTurn` | tendrl/client_queue.go:58-102 | a turn of the select leaves batch, queue, wire, bucket, connectivity trace and heartbeat time as Turned says, its sends coming out as the network decides |
| `Client.Client.Drain` | tendrl/client_queue.go:110-118 | the drain ends with the queue empty and the batch holding what was in hand, queued and arriving up to the look that found the queue empty |
| `Client.Client.Shutdown` | tendrl/client_queue.go:104-122 | drain, one last flush if there is anything, later arrivals stay queued |
| `Client.Client.ProcessQueue` | tendrl/client_queue.go:51-125 | for any schedule of turns, and a stop or none, the batch in hand, the queue, the wire, the bucket, the connectivity trace and the heartbeat time are exactly what the turns and the shutdown make of them, each send coming out as the network decides |
| `Consumer.TurnsKeepOrder` | tendrl/client_queue.go:57-102 | first in, first out, for any schedule: what was pending and what came is what was flushed and what is pending, in order |
| `Consumer.Admitted` | tendrl/client_publishing.go:94-96 | the queue takes a prefix of what is offered, all of it or as much as fills it |
| `ConsumerLaws.FlushSends` | tendrl/client_queue.go:127-158 | a flush puts the batch in hand on the wire in one piece, empties it, and leaves the bucket alone when the send succeeds or there is no storage |
| `ConsumerLaws.FailedFlushKeeps` | tendrl/client_queue.go:136-158 | a failed flush leaves each key with the last of its messages stored under it |
| `ConsumerLaws.FlushTells` | tendrl/client_connectivity.go:70-85 | what the client believes after a flush is what the last attempt without a response or with a 2xx said |
| `ConsumerLaws.ReceiveLaw` | tendrl/client_queue.go:57-63 | a receive takes the first queued message, and flushes exactly when the batch has reached the size the metrics ask for |
| `ConsumerLaws.TickLaw` | tendrl/client_queue.go:65-87 | a tick leaves nothing in hand and the queue as the arrivals made it |
| `ConsumerLaws.TickSweeps` | tendrl/client_queue.go:89-91 | after a tick whose cleanup commits the bucket has exactly the entries, after the flush, with time left; otherwise exactly those after the flush |
| `ConsumerLaws.TicksSweep` | tendrl/client_queue.go:53-91 | so has it after every tick of any number of turns |
| `ConsumerLaws.TickBeats` | tendrl/client_queue.go:93-102 | a heartbeat goes out exactly when it is on, believed online and the interval is over; the interval restarts only when it gets through |
| `ConsumerLaws.StopLaw` | tendrl/client_queue.go:104-122 | the drained batch is flushed like any other; what comes late stays queued |
| `Consumer.StopOwesNothing` | tendrl/client_queue.go:104-122 | after a stop everything that came before the drain ended has been flushed, in order; only later arrivals are queued, and nothing is in hand |
| `Consumer.StopInOrder` | tendrl/client_queue.go:104-122 | a shutdown flushes all that is pending and all the drain admits |
| `Consumer.HandStaysSmall` | tendrl/client_queue.go:59-65 | whatever the metrics, the batch in hand stays below the larger size bound and the queue within its capacity |
| `Consumer.FlushesAreBounded` | tendrl/client_queue.go:62-63 | a flush before shutdown is nonempty and within the larger size bound; the last is less than that bound, the capacity and the arrivals during the drain together |
| `Consumer.QuietDrain` | tendrl/client_queue.go:110-118 | with publishers quiet the drain takes what is queued and nothing more |
| `Consumer.DrainLook` | tendrl/client_queue.go:111-118 | one look at the queue either ends the drain or takes its first message |
| `Client.Client.SendOfflineBatch` | tendrl/client_offline.go:105-122 | succeeds exactly when one of two attempts is accepted, the second made only if the first invites it, and reports them; MaxRetries and Timeout are as before afterwards |
| `RetryBudget.RestoredWhenIdle` | tendrl/client_offline.go:105-122 | however senders and retries interleave, MaxRetries and Timeout are as configured whenever no retry is under way, and otherwise 1 and five seconds where they differ |
| `RetryBudget.SendsAreInterfered` | tendrl/client_publishing.go:172-228 | in every run each sender reads MaxRetries as configured or as 1, and the retrier as 1, which is all the retry loop's contract asks of the readings |
| `RetryBudget.AnyReadingsHappen` | tendrl/client_offline.go:105-122 | and every sequence of those two values is what a sender reads in some run |
| `Client.Partition` | tendrl/client_offline.go:47-76 | live and expired ids are separated, in any order; the j-th message of the batch is of type publish with the text, tags and own timestamp of the j-th live record |
| `Client.Client.RetryRound` | tendrl/client_offline.go:39-93 | one round: the first fifty records split, expired ones deleted, one batch with the text and tags of each live one sent, those deleted once it is accepted, with either delete able to fail |
| `Client.Client.RetryRounds` | tendrl/client_offline.go:36-101 | at most five rounds in a chain, ending early only at an empty bucket, a failed fetch or a failed send |
| `Client.Client.RetryOfflineMessages` | tendrl/client_offline.go:26-102 | a chain of rounds, none when offline; when every transaction commits, after k complete rounds the bucket is the initial one less its first min(n, 50k) records, after a failed send also without the expired records of the next window, and the wire gains one batch per nonempty round; whatever fails, each such batch carries its records' own texts and tags, and only records past their time or in an accepted batch are gone |
| `RetryCycle.RoundsInKeyOrder` | tendrl/storage.go:108-130 | every key of an earlier round sorts before every key of a later one |
| `RetryDelivery.OutgoingCarries` | tendrl/client_offline.go:62-76 | the batch for picked records has one message for each, in order, with its text, tags and timestamp |
| `RetryDelivery.RoundCarries` | tendrl/client_offline.go:82-84 | a round puts just that batch on the wire, or nothing when it has nothing to send |
| `RetryDelivery.RoundPicks` | tendrl/client_offline.go:47-58 | a round sends a record if and only if it is among the first fifty and its time has not passed; it fails if and only if there was something to send and the server did not take it |
| `RetryDelivery.RoundDeletesExactly` | tendrl/client_offline.go:77-87 | a record leaves in a round if and only if its time had passed and that delete committed, or it was in the batch the server took and that delete committed; the rest stay as they were |
| `RetryDelivery.CycleSendsAsStored` | tendrl/client_offline.go:36-101 | over a cycle the wire grows by one batch for each round with something to send, and that batch carries its records as they were stored when the cycle began |
| `RetryDelivery.CycleDeletesOnlySpent` | tendrl/client_offline.go:36-101 | whatever leaves the bucket in a cycle had passed its time, or its own text and tags were in a batch the server took |
| `RetryDelivery.CycleIsFaithful` | tendrl/client_offline.go:36-101 | both hold of every cycle, whichever fetches, sends and deletes fail |
| `RetryCycle.RoundDeletes` | tendrl/client_offline.go:77-86 | deleting the expired keys of a window leaves its unexpired records and the rest, deleting the live ones too leaves the rest |
| `RetryCycle.CycleSums` | tendrl/client_offline.go:36-101 | a chain of rounds has the exact effect stated for the cycle |
| `RetryCycle.CycleEffect` | tendrl/client_offline.go:36-101 | its part about the bucket and the keys sent |
| `RetryCycle.CycleWire` | tendrl/client_offline.go:81-86 | its part about what was sent |
| `RetryCycle.CycleTrace` | tendrl/client_offline.go:105-122 | what a cycle reports about connectivity, whether or not its deletes commit |
| `RetryCycle.CycleSendsDeliverable` | tendrl/client_offline.go:36-101 | a cycle that does all five rounds or empties the bucket sends exactly the records deliverable from it |
| `Storage.Storage.constructor` | tendrl/storage.go:25-41 | opening a file keeps what its bucket holds and creates a missing bucket empty |
| `Storage.Storage.Store` | tendrl/storage.go:44-60 | puts the record with data, tags, time and TTL under its key, or changes nothing when the transaction fails |
| `Storage.Storage.GetBatch` | tendrl/storage.go:108-130 | returns the first limit records in key order |
| `Storage.Storage.DeleteBatch` | tendrl/storage.go:133-143 | removes the records at those keys in one step, or none |
| `Storage.Storage.CleanupExpired` | tendrl/storage.go:82-100 | removes exactly the records past their TTL at one clock reading, or none |
| `Storage.PutIsUpdate` | tendrl/storage.go:52-59 | storing updates the map at one key |
| `Storage.PutSorted` | tendrl/storage.go:52-59 | and keeps key order |
| `Storage.WithoutIsDeletion` | tendrl/storage.go:133-143 | deleting keys removes exactly those entries of the map |
| `Storage.UnexpiredAsMap` | tendrl/storage.go:82-100 | a cleanup leaves exactly the entries whose timestamp plus time to live is after its reading |
| `Storage.PrefixIsFirst` | tendrl/storage.go:113-127 | a prefix of the bucket holds the least keys |
| `Storage.CleanupKeepsFetched` | tendrl/storage.go:82-100 | a cleanup at or before every reading of a cycle removes no record the cycle could deliver, and each is still among its first 250 |
| `Storage.CleanupCostsIff` | tendrl/storage.go:82-100 | for any clock: a record among the first 250 can be delivered after a cleanup if and only if the cleanup keeps it and the reading of the round it then falls into does not expire it |
| `Storage.CleanupCostsNothing` | tendrl/storage.go:82-100 | so with a clock that never goes back, all that could be delivered before a cleanup still can after it |
| `Refinement.StoringRefines` | tendrl/client_queue.go:147-157 | the storing loop, with failing stores, is a run of the machine's steps on the same bucket |
| `Refinement.NamesExist` | tendrl/storage.go:17-22 | whatever messages, alike or not, and whatever bucket: there are distinct machine messages that name them all |
| `ConsumerRefinement.OfferRefines` | tendrl/client_publishing.go:94-109 | arrivals, alike or not, are publish steps: those with room enter the queue in order |
| `ConsumerRefinement.FlushRefines` | tendrl/client_queue.go:132-158 | a flush is a run of the machine: each network error noted, then accepted, or given up and stored message by message, with the same queue, bucket and connectivity; the batch is handed over, and delivered exactly when the send succeeded |
| `ConsumerRefinement.BeatRefines` | tendrl/client_queue.go:93-102 | so is the heartbeat part of a tick, which hands over and delivers nothing |
| `ConsumerRefinement.TurnRefines` | tendrl/client_queue.go:57-102 | so is every turn of the select with its arrivals, handing over exactly the batch the turn flushes, if it does |
| `ConsumerRefinement.TurnsRefine` | tendrl/client_queue.go:53-103 | so is any number of turns; batch by batch the machine's history is what the client put on the wire, and it has delivered the batches whose sends succeeded |
| `ConsumerRefinement.ShutdownRefines` | tendrl/client_queue.go:104-122 | so is the shutdown, with publishers still offering, from the stop signal to the exit |
| `ConsumerRefinement.ProcessQueueRefines` | tendrl/client_queue.go:51-125 | so is all of processQueue from a client opened on any store, for any schedule and any shutdown; the end states correspond, and the messages handed over are the queued messages sent, one by one |
| `ConsumerRefinement.ProcessQueueRuns` | tendrl/client_queue.go:51-125 | there is such a run for every bucket and every sequence of messages, with equal ones among them |
| `ConsumerRefinement.SentAreAccountedFor` | tendrl/client_queue.go:127-158 | so each message processQueue sent is in the bucket, was in an accepted batch, or has expired or been lost |
| `RetryRefinement.RoundRefines` | tendrl/client_offline.go:39-93 | a round of the retrier, complete or failed, whichever of its deletes commit, is a run of the machine that delivers exactly the records the server took |
| `RetryRefinement.DeliveredWereCarried` | tendrl/client_offline.go:62-93 | each message the machine delivers in a round was on the wire in that round, with its own text and tags |
| `RetryRefinement.CycleRefines` | tendrl/client_offline.go:36-101 | so is a chain of rounds |
| `RetryRefinement.RetryRefines` | tendrl/client_offline.go:26-101 | so is the whole of retryOfflineMessages, from the online check to whichever end it comes to |
| `Messages.StoredTextDecodes` | tendrl/client_publishing.go:15-43 | the queue route stores text decoding to the prepared data, the direct routes text decoding to the caller's data, both with the tags; they agree exactly when the data is not a string |
| `Messages.RetryErases` | tendrl/client_offline.go:62-74 | what a retry sends is determined by stored text and tags; destination, wait flag and timeout are gone, and the data is always a string |
| `Messages.NewMessageCarries` | tendrl/client_publishing.go:49-70 | a new message has the destination, time, tags, wait flag and timeout of the call; a text is wrapped as an object holding it under data, other data is kept |
| `Messages.RecordKeeps` | tendrl/client_queue.go:143-157 | a failed message is kept, if its data is nil or can be encoded, as that text with its tags and an hour to live |
| `Messages.DirectRecordKeeps` | tendrl/client_publishing.go:80-90 | what Publish stores itself is the caller's data, likewise |
| `Connectivity.ConnectivityState.Update` | tendrl/client_connectivity.go:70-91 | the record stays what its trace of updates says it is |
| `Connectivity.ConnectivityState.constructor` | tendrl/client.go:122-126 | it starts online |
| `Connectivity.History` | tendrl/client_connectivity.go:70-91 | with a monotone clock both stamps are at most the last check, the later stamp tells whether the client is online, and each is the latest flip its way, or zero |
| `BatchSizing.BatchSize` | tendrl/client_queue.go:36-48 | the size is at least the minimum and at most the larger bound, whatever the metrics |
| `BatchSizing.QueueLoadIsPercentage` | tendrl/client_queue.go:26 | the queue load is between 0 and 100 |
| `BatchSizing.FactorIsFraction` | tendrl/client_queue.go:40-45 | the weighted factor is between 0 and 1 and the raw size never exceeds the maximum |
| `BatchSizing.SizeIsMonotone` | tendrl/client_queue.go:40-47 | more CPU or memory load never enlarges a batch, more queue load never shrinks it |
| `BatchSizing.BackOffAtTargets` | tendrl/client_queue.go:40-47 | with both targets reached the size is at most the larger of the minimum and a fifth of the maximum |
| `BatchSizing.SizeIs` | tendrl/client_queue.go:36-48 | the exact size where processor and memory are idle, half loaded or at their targets and the queue empty, half or fully weighed: two fifths, two fifths and one fifth of the maximum |
| `Poller.NoLostRateChange` | tendrl/client_callbacks.go:149-193 | over every interleaving an interval out of date means a token in the channel, a setter about to signal, or a poller about to read or arm the current rate; at quiescence the timer runs on the current rate |
| `Poller.AnnouncedAlong` | tendrl/client_callbacks.go:21-62 | the invariant behind it |
| `Poller.SettlesWithin` | tendrl/client_callbacks.go:157-187 | once setters and timer are still, only so many steps can follow |
| `Poller.RateIsLastSet` | tendrl/client_callbacks.go:21-29 | the rate is the last positive one set in the run |
| `Poller.NeverSet` | tendrl/client_callbacks.go:21-29 | or, if none was set, the one the poller started with |
| `Poller.SettledIsCurrent` | tendrl/client_callbacks.go:157-187 | and when none can follow the poller waits on the rate last set |
| `StateTables.CloneStateMap` | tendrl/client_state.go:125-138 | a nil table becomes an empty one, a decodable one a fresh object, any other is returned itself |
| `StateTables.CloneKeepsSnapshot` | tendrl/client_state.go:125-138 | a clone has its original's snapshot |
| `StateTables.SnapshotsTell` | tendrl/client_state.go:14-20 | tables that encode have equal snapshots if and only if they have equal texts; a nil table counts as null |
| `StateTables.Watcher.Commit` | tendrl/client_state.go:109-116 | the locked section records the new table in an object of its own and reports the record before |
| `StateTables.Watcher.DispatchState` | tendrl/client_state.go:32-47 | the state handler gets the table, else the callback, else nobody |
| `StateTables.Watcher.CheckState` | tendrl/client_state.go:64-123 | a handler is called if and only if a table was received before and its text differs from the new one, the state handler or else the callback, with the table received; a failed poll changes nothing |
| `StateWatch.InvKept` | tendrl/client_state.go:109-122 | every step of concurrent polls and mutating handlers keeps each call's place in the commit order |
| `StateWatch.ExactlyOnceInCommitOrder` | tendrl/client_state.go:100-123 | each poll that committed did so once, with what it fetched, and dispatches if and only if a table was committed before it and the one just before has another text; the record is always the last table's |
| `StateWatch.FetchedIsReceived` | tendrl/client_state.go:85-107 | what a poll fetched is what came back to it, whatever handlers do meanwhile |
| `Routes.ContainsTag` | tendrl/client_routes.go:37-44 | membership |
| `Routes.AnyTag` | tendrl/client_routes.go:46-53 | some tag of the route is on the message |
| `Routes.AllTags` | tendrl/client_routes.go:55-62 | every tag of the route is on the message |
| `Routes.RouteMatches` | tendrl/client_routes.go:20-35 | all the criteria that are set hold |
| `Routes.Dispatcher.On` | tendrl/client_routes.go:96-103 | adds a route last, unless its handler is nil; mu is free before and after |
| `Routes.Dispatcher.OnDefault` | tendrl/client_routes.go:106-110 | replaces the default handler |
| `Routes.Dispatcher.SetMessageCallback` | tendrl/client_callbacks.go:12-16 | replaces the callback |
| `Routes.Dispatcher.DispatchMessage` | tendrl/client_routes.go:70-92 | calls the first matching route's handler, else the default, else the callback, as registered when it starts, with mu free |
| `Routes.Dispatcher.DispatchPage` | tendrl/client_callbacks.go:122-132 | dispatches a page in order despite handler errors and registrations by handlers |
| `Routes.Dispatcher.CheckMessages` | tendrl/client_callbacks.go:65-138 | the whole poll: who is called, the error returned, the connectivity report |
| `Routes.MatchIsStable` | tendrl/client_routes.go:70-84 | adding routes does not change who gets a message some route already matched |
| `Routes.ChosenIs` | tendrl/client_routes.go:80-92 | the first matching route gets the message; without one the default handler; without that the callback; else nobody |
| `Routes.RoutesAdded` | tendrl/client_routes.go:96-103 | registration calls add exactly the routes that have a handler |
| `Routes.LastDefault` | tendrl/client_routes.go:106-110 | the default handler is the last one set |
| `Routes.LastCallback` | tendrl/client_callbacks.go:12-16 | so is the callback |
| `Routes.RegisteredWhileHandled` | tendrl/client_callbacks.go:124-132 | what a handler registers while it runs is there for the later messages of the page |
| `Routes.MatchedAtStartKeepsItsRoute` | tendrl/client_routes.go:70-84 | so a message matched when the page arrives keeps that handler whatever earlier handlers register |
| `Routes.CalledOnceInOrder` | tendrl/client_callbacks.go:124-132 | each message with a taker leads to one call, in page order |
| `Shutdown.StartBackground` | tendrl/client.go:139-177 | for every combination of switches the count equals the goroutines started, and a retrier runs only with an open store |
| `Shutdown.MeantAre` | tendrl/client.go:139-177 | which goroutines those are: processor, metrics and poller in managed mode, the retrier with storage and retry on, the monitor with checks on, and no tether |
| `Shutdown.StartMessageChecking` | tendrl/client_callbacks.go:149-156 | the poller counts itself |
| `Shutdown.InvKept` | tendrl/client.go:422-443 | every step of goroutines, tethers and Stop keeps the count exact |
| `Shutdown.StoreOutlivesItsUsers` | tendrl/client.go:422-443 | the count is the number of live goroutines; only tethers started after Stop stopped waiting can find the store closed |
| `Shutdown.AllLeave` | tendrl/client.go:430-438 | once done is closed every goroutine can leave, bringing the count to zero |
| `Shutdown.LateTetherMeetsClosedStore` | tendrl/client.go:495-527 | from any start with an open store, some run has a tether started after Stop use it closed |
| `Config.ToConfig` | tendrl/config.go:181-283 | every setting is the file's when given and its default otherwise; retries, sizes and targets are positive |
| `Config.GivenOrDefault` | tendrl/config.go:213-283 | a positive count and a mentioned switch are used as given, anything else is the default |
| `Config.Config.Defaults` | tendrl/config.go:182-212 | the defaults |
| `Config.Config.ApplyManagedGating` | tendrl/config.go:287-295 | outside managed mode storage, retry, checks and heartbeat are off; in it nothing changes |
| `Config.IntervalIsExactIff` | tendrl/config.go:215-217 | an interval is the file's exactly when its nanoseconds fit 64 bits, and then it is positive |
| `Config.AboutThreeCenturiesIsTooLong` | tendrl/config.go:245-256 | the first number of seconds that wraps around |

## Left out

- Client.Client.RetryOfflineMessages: takes no other goroutine to touch storage during the cycle; interleaving is in the pipeline machine.
- Client.Client.ProcessQueue: has no storing by other goroutines between its turns; that too is in the machine. A message refused by a full queue is not stored by its Publish here.
- Client.Client.SendMessages: has no message ids in its result and no payload difference between a single waiting message and a batch.
- StateTables.Watcher.CheckState: asks that a received table can be encoded and decoded again, as every table decoded from JSON can.
- ConsumerRefinement.ProcessQueueRefines: takes the calls to Publish to have begun online; it covers managed mode with storage on.
- HTTP itself: URLs, headers, bodies, status texts, body reuse across attempts. An attempt is a network error, a 2xx, retryable (429 of section 4 of RFC 6585, or 5xx of section 15.6 of RFC 9110) or final.
- BoltDB: transactions are atomic, deletion inside ForEach deletes what it should, corrupt records and Stats are absent.
- JSON: an encoder that may fail and a decoder that inverts it; tables encode canonically.
- Sampling CPU and memory, the metrics goroutine, heartbeat contents, and IEEE rounding in the batch size.
- Real time: sleeps are a summed backoff, timers fire whenever a step says so.
- The Go memory model: reads and writes of unguarded fields (MaxRetries, Timeout, lastHeartbeat) are atomic.
- A second Stop, API key validation, entity status updates, base URL handling, file upload and download helpers, user-agent and operating-system strings, and finding or saving the configuration file.
- Liveness of the pipeline: that a retry eventually happens depends on the environment; the closed trap and exactly when there is a way out of it are proved.
