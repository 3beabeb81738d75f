# Telemetry event pipeline: a verified model

The repository collects telemetry events over gRPC and stores them through plugins. Its
core is a generic asynchronous processor: `Submit` checks a deduplicator and puts the event
on a bounded channel; a pool of workers takes events off the channel, each into its own
batcher; a batch is flushed when it is full, when a timer expires, or when the worker
stops, and is then written to all plugins in parallel; `Shutdown` closes the channel and
waits for the workers, or cancels them after a timeout.

This project models that pipeline and the pieces around it, and proves what they keep.

| file | what it models |
|---|---|
| `Batcher.dfy` | one batcher: what each critical section does (`BatcherSpec`), and the mutable object with its backing array (`BatcherClass`) |
| `MemoryDeduplicator.dfy` | the TTL cache against the history of its operations, and the mutable object |
| `Pipeline.dfy` | the whole pipeline as a labelled step machine over any number of Submit calls, workers and plugins |
| `WorkerInvariant.dfy`, `SystemInvariant.dfy` | the inductive invariant |
| `PipelineTheorems.dfy` | conservation, order, bounded residency, what a shutdown leaves behind |
| `SubmitCall.dfy` | one call of Submit, from its start to its return |
| `ShutdownSafety.dfy`, `PanicSafety.dfy` | Submit's outcomes, what happens after Shutdown, when calling Shutdown can end in a panic |
| `ForcedShutdown.dfy`, `EventLoss.dfy` | what a shutdown can lose, event by event |
| `FanOut.dfy` | what each plugin is given; write errors |
| `FlushDeadline.dfy`, `WaitingTime.dfy`, `Lateness.dfy` | timers and time; where, and which, events can wait too long |
| `Drain.dfy` | termination and progress of the drain |
| `Delivery.dfy`, `Skips.dfy` | end to end: exactly once, at most once per fingerprint and TTL window, and no event skipped for nothing |
| `Retry.dfy`, `Placeholders.dfy`, `DeduplicationKeys.dfy`, `PluginList.dfy`, `Strings.dfy` | backoff, the SQL VALUES builder, the event keys, the plugin list |
| `Collections.dfy` | flattening and sums over sequences |

How to read the pipeline model. A run is a sequence of labels from the initial state, and
every theorem about the pipeline is about the end of an arbitrary run. One step is one
action of one goroutine that the others can observe. Whatever the Go scheduler, a `select`
with several ready cases, a timer, a remote deduplicator or a storage backend may choose is
part of the label. Add's critical section is two steps, so a timer may fire between being
armed and being stopped; a callback that has been launched waits for the mutex as long as
it likes, even into a later batch. Each accepted event carries the number of the Submit call
that sent it, so events are distinct and "exactly once" can be said of each.

Two promises of the repository's own README do not hold of the code in general.

- "No in-flight data is lost" on shutdown. Say that an accepted event is lost when no
  continuation of the run ever processes it. Calling Shutdown, with no further calls, can
  lose an event if and only if it is queued, or some worker has it unfinished while an
  outstanding Submit may still come to its send (`ShutdownCanLoseIff`; `CanBeLostIff` says
  the same of every later moment): a queued event is lost when the timeout strikes, a
  worker's event when the late send panics. `ForcedShutdownCanLoseAnEvent` and
  `PanicCanLoseAnEvent` are such runs. If one more Submit arrives after the channel is
  closed, everything unprocessed can be lost (`LateSubmitCanLoseIff`). As long as all workers
  do exit, only queued events are lost, and of these a suffix (`LostWasQueuedAtTimeout`).
  All this is about a process that outlives its workers. The application does not wait for
  them: after a timeout it closes the plugins and main returns (internal/app/app.go:137-163,
  main.go:34-42). What a process that ends at some moment leaves behind is given by
  `UnprocessedIff`. WriteBatch gets a context derived from the processor's
  (pkg/processor/processor.go:179), so whatever is flushed after the timeout is passed on
  with a context that is already cancelled, and counts as processed whatever the plugin then
  does.
- "No event waits longer" than the flush interval. Counted from its acceptance, and with due
  timers served on time, an event that has not been handed to processBatch can come to wait
  longer if and only if it is queued, held by a worker, or buffered behind an event that was
  appended only after its own acceptance; in the last case it must have waited longer
  already, or no launched callback may be waiting to flush that buffer (`CanBeLateIff`). `AcceptedEventCanWaitForAnyTime` is a run in which one waits as
  long as a write takes. Counted from the append the promise does hold
  (`AppendedIsFlushedWithinTheInterval`).

A batch can also be flushed before its interval is over, by the callback of an earlier
batch's timer, under exactly the condition of `CallbackFlushesEarlyIff`.

Premises that come from outside the processor are explicit: `Validated` is what
`ValidateConfig` checks; `Clean` says that Shutdown is called once, with no Submit
outstanding or starting later. The application does not ensure the second: it shuts the
processors down without first stopping the gRPC server (internal/app/app.go:137-146).
`ShutdownCanPanicIff` says exactly which outstanding calls make that dangerous, and
`SubmitDuringShutdownPanics` is a run that panics.

## Model

| member | source | states |
|---|---|---|
| BatcherSpec.AnyRunPartitionsItsEvents | pkg/processor/batcher.go:36-92 | After any mix of Add, timer fires, callbacks however late, manual flushes and waiting: handed-out batches followed by the buffer are the added events in order, batches have 1 to max(1, maxSize) events, the buffer stays below that, and the timer invariant holds |
| BatcherSpec.AddOutcome | pkg/processor/batcher.go:36-77 | What Add leaves behind, in full: below max(1, maxSize) events nothing is handed out, and only the event that opens the buffer arms a timer, due maxWait from now; the event that fills it has exactly that many handed out, in order, with no timer left armed and launched callbacks still launched |
| BatcherSpec.CallbackFlushesEarlyIff | pkg/processor/batcher.go:44-84 | After any mix of operations, a waiting callback flushes the buffer before its oldest event has waited maxWait if and only if it is not the current timer's callback and that timer is not due; the current timer's own callback is never early |
| BatcherSpec.StaleCallbackFlushesEarly | pkg/processor/batcher.go:69-84 | Such a run: the callback of an already flushed batch's timer flushes the next batch at age 0 and recalls its timer; nothing is lost |
| BatcherClass.Batcher.constructor | pkg/processor/batcher.go:25-32 | A new batcher is empty, with a preallocated array of its own |
| BatcherClass.Batcher.AppendEvent | pkg/processor/batcher.go:41-41 | Append writes in place while there is capacity and otherwise moves to a fresh array; earlier batches are untouched |
| BatcherClass.Batcher.Add | pkg/processor/batcher.go:36-52 | Add refines the specification step and hands out the buffer exactly when it has reached maxSize; for maxSize >= 1 the backing array is never replaced; no batch handed out earlier shares it or changes |
| BatcherClass.Batcher.CopyEvents | pkg/processor/batcher.go:68-70 | The batch handed out is a fresh copy of the buffered events |
| BatcherClass.Batcher.FlushLocked | pkg/processor/batcher.go:56-77 | flush stops the timer, empties the buffer, hands out exactly its contents and keeps all earlier batches intact; nothing when empty |
| BatcherClass.Batcher.TimeoutFlush | pkg/processor/batcher.go:80-84 | A timer callback, stale or not, refines the specification step |
| BatcherClass.Batcher.Flush | pkg/processor/batcher.go:88-92 | A manual flush refines the specification step |
| BatcherClass.Batcher.Size | pkg/processor/batcher.go:95-99 | The number of buffered events, always below max(1, maxSize) |
| DedupSpec.CacheRefinesHistory | pkg/dedup/memory.go:45-103 | A key is cached if and only if no sweep after its latest Mark found it older than the TTL (and no Close came since), and then maps to that Mark's time |
| DedupSpec.MarkedWithinTtlIsDuplicate | pkg/dedup/memory.go:45-53 | A key marked at most the TTL ago is reported as a duplicate |
| DedupSpec.DuplicateIsRecent | pkg/dedup/memory.go:84-96 | A reported key was marked at most the TTL plus the time since the last sweep ago |
| DedupSpec.ForgottenWasExpired | pkg/dedup/memory.go:84-96 | A key marked once and no longer reported was removed by a sweep more than the TTL after its latest Mark |
| DedupSpec.StaleEntryIsStillReported | pkg/dedup/memory.go:48-50 | Presence is all that counts: between sweeps a key older than the TTL is still reported |
| MemoryDeduplicatorClass.MemoryDeduplicator.constructor | pkg/dedup/memory.go:28-42 | A new deduplicator has an empty cache and history |
| MemoryDeduplicatorClass.MemoryDeduplicator.IsDuplicate | pkg/dedup/memory.go:45-53 | Answers whether the recorded history leaves the key cached; changes no entry |
| MemoryDeduplicatorClass.MemoryDeduplicator.Mark | pkg/dedup/memory.go:56-64 | Records the Mark and overwrites the key's time |
| MemoryDeduplicatorClass.MemoryDeduplicator.RemoveExpired | pkg/dedup/memory.go:84-103 | In whatever order entries are visited, exactly those older than the TTL go, and the count removed is right |
| MemoryDeduplicatorClass.MemoryDeduplicator.CleanupTurn | pkg/dedup/memory.go:67-81 | The cleanup goroutine sweeps at a tick and ends only once stopped by Close |
| MemoryDeduplicatorClass.MemoryDeduplicator.Close | pkg/dedup/memory.go:106-115 | The first Close stops the cleanup and empties the cache; any later one panics and changes nothing |
| WorkerInvariant.ActionsRefineTheBatcher | pkg/processor/batcher.go:36-84 | The pipeline's steps inside Add and timeoutFlush compose to the batcher's own operations |
| WorkerInvariant.SizeFlushIsFull | pkg/processor/batcher.go:48-51 | Inside Add a flush for size happens exactly at max(1, BatchSize) buffered events and passes on exactly these; with fewer Add returns |
| WorkerInvariant.WorkerHoldsAtMostABatch | pkg/processor/processor.go:110-122 | A worker never holds more than max(1, batch size) unprocessed events, a timer flush in flight plus a held event included |
| SystemInvariant.RunKeepsInv | pkg/processor/processor.go:95-293 | Every state of every run satisfies the pipeline's invariant |
| PipelineTheorems.Conservation | pkg/processor/processor.go:95-159 | Everything ever sent is, exactly once, in the channel, held, buffered, in flight or processed |
| PipelineTheorems.OrderAndPartition | pkg/processor/processor.go:110-122 | The channel is FIFO, its deliveries are an interleaving of the workers' received sequences, and each worker's batches, buffer and held event are its received sequence in order |
| PipelineTheorems.BoundedResidency | pkg/processor/processor.go:67-132 | At most ChannelBuffer + Workers * max(1, BatchSize) accepted events are unprocessed |
| PipelineTheorems.GracefulShutdownCompletes | pkg/processor/processor.go:258-278 | When Shutdown has returned nil the channel and all batchers are empty and every accepted event was processed exactly once |
| PipelineTheorems.GracefulCountersAgreeIff | pkg/processor/processor.go:233-278 | eventsProcessed then equals the number sent, and equals eventsReceived if and only if no Submit is between its send and its counter |
| PipelineTheorems.ForcedShutdownLosesTheChannel | pkg/processor/processor.go:280-291 | Once all workers have exited, whatever made them exit, accepted = processed + still queued, with nothing stranded in a batcher or in flight |
| ForcedShutdown.LostWasQueuedAtTimeout | pkg/processor/processor.go:110-131 | If all workers exit after the timeout, what they have not processed is a suffix of what was queued when it struck |
| ForcedShutdown.TimeoutCanLoseIff | pkg/processor/processor.go:280-291 | After a timeout some continuation ends with all workers gone and an accepted event unprocessed if and only if the channel is not empty |
| ForcedShutdown.AnySuffixCanBeLostIff | pkg/processor/processor.go:110-131 | Which outcomes the selects can choose after a timeout: any number of the queued events may still be processed before all workers are gone, if and only if some worker has not begun to leave; else none |
| EventLoss.UnprocessedIff | pkg/processor/processor.go:95-159 | At any moment the accepted events not yet processed are exactly the queued ones and those a worker holds, buffers or is writing |
| EventLoss.CanBeLostIff | pkg/processor/processor.go:110-291 | Once the channel is closed, some continuation without further calls loses an event for good if and only if it is queued, or a worker has it unfinished and an outstanding Submit may still come to its send |
| EventLoss.ShutdownCanLoseIff | pkg/processor/processor.go:258-291 | The same condition, judged when Shutdown is called |
| EventLoss.LateSubmitCanLoseIff | pkg/processor/processor.go:204-262 | With one more Submit after the close that may pass the deduplicator, exactly the unprocessed events can be lost |
| EventLoss.PanicCanLoseAnEvent | pkg/processor/processor.go:231-262 | A run with nothing queued in which calling Shutdown can lose an event a worker has received |
| ShutdownSafety.ForcedShutdownCanLoseAnEvent | pkg/processor/processor.go:111-130 | A run in which an accepted event is never processed |
| SubmitCall.DuplicateIsSkipped | pkg/processor/processor.go:206-222 | From any state, a call answered "duplicate" bumps eventsDuplicated and changes nothing else |
| SubmitCall.NewEventIsSent | pkg/processor/processor.go:206-235 | From any open state with a free slot, a call not answered "duplicate", be it for a failed check or Mark, sends its event last in the channel, bumps eventsReceived, and with the memory deduplicator marks the fingerprint of the event's deduplication key at the present time; nothing else changes |
| SubmitCall.SentUnchecked | pkg/processor/processor.go:206-235 | Without a deduplicator the same, unchecked and unmarked |
| SubmitCall.CheckStep | pkg/dedup/memory.go:45-53 | Which answers each deduplicator can give: the no-op one never a duplicate, the memory one by presence of the key's fingerprint, a remote one anything, an error included |
| SubmitCall.FastSendIffRoom | pkg/processor/processor.go:231-241 | The first select sends if and only if the channel holds fewer than ChannelBuffer events |
| SubmitCall.SlowSendIffRoom | pkg/processor/processor.go:244-253 | In the second select, or blocked there, a call can send if and only if a slot is free, gives up only after cancellation, and blocks exactly when neither is possible |
| SubmitCall.RedeliveryIsDuplicate | pkg/dedup/memory.go:45-64 | With the memory deduplicator the only possible answer for an event whose deduplication key was marked at most the TTL ago, whatever else differs, is "duplicate" |
| SubmitCall.CloseForgets | pkg/dedup/memory.go:106-115 | After the deduplicator is closed the next check of any event is answered "new" |
| ShutdownSafety.SubmitAccounting | pkg/processor/processor.go:204-254 | Returned calls = received + duplicated + dropped; skipped only on a positive duplicate answer, never on a deduplicator error; sent if and only if accepted; rejected only after cancellation |
| PanicSafety.ShutdownCanPanicIff | pkg/processor/processor.go:204-262 | Calling Shutdown can end in a panic, without further calls, if and only if some outstanding Submit may still come to its send; if none may, nothing is dropped either |
| PanicSafety.SubmitDuringShutdownPanics | pkg/processor/processor.go:231-262 | A run in which a Submit meets the closed channel |
| ShutdownSafety.CleanShutdownNeverPanicsOrDrops | pkg/processor/processor.go:204-262 | With Shutdown called once and no Submit outstanding or later, nothing panics and nothing is dropped |
| ShutdownSafety.NothingIsFlushedAfterReturn | pkg/processor/batcher.go:80-92 | After Shutdown has returned nil no callback or other step flushes, processes or writes anything |
| FanOut.FilterBatch | pkg/processor/processor.go:164-169 | The loop yields exactly the accepted events of the batch, in order |
| FanOut.FanOutFiltersTheRun | pkg/processor/processor.go:135-200 | Per worker and plugin: the slices written, concatenated, are the plugin's filter of the worker's processed events; none is empty or too large; no plugin starts a batch before all have finished the previous one |
| FanOut.ErrorsAreInvisible | pkg/processor/processor.go:186-193 | Changing any WriteBatch answers in a run changes nothing but the error counts |
| FanOut.FailuresAreCounted | pkg/processor/processor.go:186-193 | Per worker and plugin, the number of WriteBatch calls that returned an error in the run |
| FlushDeadline.TimerCoversTheBuffer | pkg/processor/batcher.go:44-73 | Something is buffered exactly while the timer is set, and the timer is armed or its callback waits, due one interval after the oldest buffered event |
| FlushDeadline.BufferedNoLongerThanTheInterval | pkg/processor/batcher.go:44-46 | If due timers are served before time moves on, no event stays buffered longer than the interval |
| WaitingTime.AppendedIsFlushedWithinTheInterval | pkg/processor/batcher.go:36-84 | In a timely run an event appended longer ago than the interval has been handed to processBatch by its worker |
| WaitingTime.UnprocessedIsBufferedIff | pkg/processor/processor.go:110-159 | In a timely run an accepted, unprocessed event is in a buffer, since no longer than the interval, if and only if it is not queued, held at the mutex or being written |
| Lateness.CanBeLateIff | pkg/processor/batcher.go:36-84 | Some timely continuation keeps an accepted event from processBatch for longer than the interval since its acceptance if and only if it is queued, held, or buffered behind an event appended after that acceptance and either overdue already or with no launched callback waiting to flush the buffer |
| Lateness.WaitUntil | pkg/processor/batcher.go:44-84 | From any state of a timely run time can pass, timely, to any moment before which no timer of a chosen worker is due, leaving that worker, the channel and held events alone |
| WaitingTime.AcceptedEventCanWaitForAnyTime | pkg/processor/processor.go:110-159 | A timely run in which an accepted event is queued for any length of time while the only worker writes |
| Drain.DrainStepDecreases | pkg/processor/processor.go:110-159 | After close, every step of a Submit, worker, batcher, plugin write, callback or Shutdown strictly decreases a measure |
| Drain.DrainIsBounded | pkg/processor/processor.go:110-159 | From any closed state, any continuation without new calls has at most that many such steps |
| Drain.WorkerCanStep | pkg/processor/processor.go:110-131 | After close, a worker that has not exited always has a possible step |
| Drain.DrainEndsComplete | pkg/processor/processor.go:258-291 | When no worker step and no return is left, all workers have exited and Shutdown has returned, with everything processed unless it timed out |
| Delivery.DeliveredAtMostOnce | pkg/processor/processor.go:145-183 | In any run, no accepted event is passed to a plugin twice, and only accepted events are |
| Delivery.GracefulShutdownDeliversExactlyOnce | pkg/processor/processor.go:164-183 | After a graceful shutdown each accepted event was passed exactly once to each plugin whose filter takes it, and to no other |
| Delivery.AcceptedTwiceOnlyIfOverlappingOrApart | pkg/processor/processor.go:206-229 | Two accepted events whose deduplication keys have one fingerprint: each check preceded the other's Mark, or the Marks are more than the TTL apart |
| Delivery.OneEventPerFingerprintAndWindow | pkg/processor/processor.go:206-229 | Without overlapping Submits a plugin is given at most one event per fingerprint and TTL window |
| Skips.SkippedOnlyForAnother | pkg/processor/processor.go:206-229 | A call answered "duplicate" comes after the Mark of another call with that fingerprint, whose event was sent, is on its way, or was rejected after a timeout |
| Skips.EveryPassedEventIsDelivered | pkg/processor/processor.go:204-278 | With any deduplicator, failing or not: after a clean, graceful shutdown every submitted event that was not answered "duplicate" has been passed exactly once to each plugin that accepts it, and to no other |
| Skips.EveryFingerprintIsDelivered | pkg/processor/processor.go:204-278 | With the memory deduplicator, for every skipped event the one it was a duplicate of has been |
| Retry.NextBackoff | pkg/storage/plugin.go:82-97 | The loop returns the initial delay for attempt <= 0, the cap once any delay exceeded it, and otherwise the truncated exponential |
| Retry.NextCutsOffTheFraction | pkg/storage/plugin.go:90-90 | One step is the product without its fraction, toward zero: less than one unit is lost, for any sign |
| Retry.WholeMultiplierBackoff | pkg/storage/plugin.go:82-97 | With a whole multiplier k >= 1 the delay is min(MaxBackoff, InitialBackoff * k^attempt), exactly |
| Retry.DefaultDelays | pkg/storage/plugin.go:72-79 | The default policy waits 200, 400, ... 6400 ms and then 10 s |
| Retry.GrowingBackoffIsCapped | pkg/storage/plugin.go:88-96 | With multiplier >= 1 that is the smaller of the cap and the uncapped delay |
| Retry.ShrinkingBackoffIsCappedIff | pkg/storage/plugin.go:88-96 | With multiplier <= 1 it is so if and only if the first delay is within the cap or the last still reaches it |
| Retry.BackoffIsMonotone | pkg/storage/plugin.go:82-97 | Delays never decrease and stay between the initial and the maximal delay |
| Retry.MaximumHoldsIff | pkg/storage/plugin.go:83-85 | MaxBackoff bounds every delay if and only if the initial delay is within it |
| Retry.UncappedIsNearlyExponential | pkg/storage/plugin.go:90-90 | Truncation keeps the delay within (m^n - 1)/(m - 1) below initial * m^n and never above |
| Placeholders.BuildInsert | pkg/storage/plugins/postgres/stat_item_updated.go:129-165 | For any pattern of transform failures, parsing the text gives the numbers 1, 2, ... in groups of six, and the arguments are, row by row, the namespace, user id, event id, timestamp, server timestamp and payload of the surviving rows; empty and all-failed batches are told apart |
| Placeholders.SurvivorsAreTransformed | pkg/storage/plugins/postgres/stat_item_updated.go:144-149 | The rows are the transforms of exactly the events that did not fail, in batch order |
| Placeholders.RowIsPlain | pkg/storage/plugins/postgres/stat_item_updated.go:150-152 | The text of the k-th row, character by character up to the decimals |
| Placeholders.DecimalIsPlain | pkg/storage/plugins/postgres/stat_item_updated.go:150-152 | Numbers are written in decimal, without leading zeros |
| Placeholders.RenderedParsesBack | pkg/storage/plugins/postgres/stat_item_updated.go:150-165 | Rendering and parsing is a round trip for any number of rows |
| Placeholders.ArgumentsAreBounded | pkg/storage/plugins/postgres/stat_item_updated.go:141-156 | No statement the pipeline sends binds more than 6 * max(1, BatchSize) arguments |
| DeduplicationKeys.StatKeyText | pkg/events/stat_item_updated.go:38-47 | The key's text, field by field, with and without a payload |
| DeduplicationKeys.OauthKeyText | pkg/events/oauth_token_generated.go:32-38 | The same for OAuth events |
| DeduplicationKeys.StatKeyReadsBackIff | pkg/events/stat_item_updated.go:38-47 | The five fields can be read back from the key if and only if none but the timestamp contains a colon |
| DeduplicationKeys.OauthKeyReadsBackIff | pkg/events/oauth_token_generated.go:32-38 | The same for the four fields |
| DeduplicationKeys.StatKeyIsInjective | pkg/events/stat_item_updated.go:38-47 | Keys of such events are equal if and only if the fields are, the payload's stat code and its latest value as rendered included; an event without a payload shares its key only with one of value 0 and empty code |
| DeduplicationKeys.OauthKeyIsInjective | pkg/events/oauth_token_generated.go:32-38 | Keys of such events are equal if and only if the fields are, the payload's client id included; an event without a payload shares its key only with one of empty client id |
| DeduplicationKeys.StatAloneIff | pkg/events/stat_item_updated.go:38-47 | No other colon-free event (timestamps aside) shares an event's key if and only if the event is colon-free itself, or its stat code has a colon and what precedes the last one renders no value |
| DeduplicationKeys.StatUnsharedIff | pkg/events/stat_item_updated.go:38-47 | No other event at all shares an event's key if and only if no field before the value has a colon, the timestamp included, and no part of the stat code followed by a colon renders a value |
| DeduplicationKeys.OauthPlainIffAlone | pkg/events/oauth_token_generated.go:32-38 | No other colon-free event (timestamps aside) shares an event's key if and only if the event is colon-free itself |
| DeduplicationKeys.OauthUnsharedIff | pkg/events/oauth_token_generated.go:32-38 | No other event at all shares an event's key if and only if no field, the timestamp included, has a colon |
| DeduplicationKeys.ColonsCanCollide | pkg/events/oauth_token_generated.go:37-37 | Two different events with one key, when a user id contains a colon, for either kind |
| DeduplicationKeys.KindsNeverCollide | pkg/dedup/redis.go:87-89 | Keys of the two kinds never coincide, whatever the fields contain; the Redis keys share one prefix and rely on it |
| PluginList.GetEnabledPlugins | pkg/config/config.go:131-140 | The names are the comma-separated parts that are not blank, in order, each without its outer space, so each is clean; and they are the value the two results below are about |
| PluginList.OrdinaryNamesComeBack | pkg/config/config.go:131-140 | Names made of letters, digits, '-' and '_' come back in order, whatever spaces, tabs and line ends surround them |
| PluginList.ParsePrintRoundTrip | pkg/config/config.go:131-140 | Parsing the comma-joined names gives them back if and only if each is non-empty, trimmed and free of commas |
| PluginList.ParseIsIdempotent | pkg/config/config.go:131-140 | Parsing, joining and parsing again is the identity on the output, for every input |

## Left out

- The processor is a step machine on values, not a class: its goroutines interleave, which methods of one object cannot show. What that leaves out is the sharing of event pointers and of one batch slice between the plugin goroutines, which only read them.
- A sender blocked on the full channel is handed a freed slot directly by the Go runtime, in FIFO order; the model lets any sender take a free slot, so it has more interleavings than the code.
- `Start` and the launch of the goroutines: every worker is in its loop from the first state on, as the application starts the processors before it exposes them.
- The contexts of Submit (100 ms) and WriteBatch (30 s) appear only as arbitrary answers of a remote deduplicator or of WriteBatch.
- A negative batch size, with which creating a batcher panics: the model takes sizes from 0 on. `ValidateConfig` does not check it.
- Scheduler fairness and a WriteBatch that never returns: the drain results say that every step decreases a measure and that a step exists, not that it is taken.
- Integer width: counters and durations are unbounded.
- Retry.NextBackoff: float64 multiplication is exact real multiplication, so IEEE rounding and overflow of the conversion to a duration are not modelled.
- The fingerprint (SHA-256) is an arbitrary function; results are about fingerprints, and none assumes that it is injective.
- DeduplicationKeys.StatKeyReadsBackIff: the rendering of the float value with a string verb is a parameter, so keys tell values apart only as far as it does.
- PipelineTheorems.ForcedShutdownLosesTheChannel: "processed" is what the code counts; that writes begun after the timeout get a cancelled context is not modelled, since WriteBatch may answer anything.
- A sweep of the memory deduplicator that is under way while it is closed: in the pipeline sweeps end with Close (in the class they may come later).
- Delivery.AcceptedTwiceOnlyIfOverlappingOrApart: premise that the deduplicator has not been closed, which the application does only after shutting the processors down.
- Redis, S3, Kafka and MongoDB clients, SQL transactions and connections, health checks: a plugin is a filter and a WriteBatch with an arbitrary answer, a remote deduplicator answers anything.
- The Postgres plugin for OAuth events repeats the same loop and is not modelled a second time.
- `ToDocument`, JSON encoding, gRPC services, metrics, logging, `Stats`, configuration range checks and the no-op deduplicator's constants: settled by reading one body.
