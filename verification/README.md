# Verification of the delivery core

This project models the part of the New Relic Lambda extension that decides where each agent payload, report line,
telemetry item and metric batch sits, when it is sent, and when it may be dropped, and proves what that code keeps over
every run. `dafny verify dfyconfig.toml` checks it.

The runtime is single-threaded, so the code between two `.await` points is atomic. Each concurrent part is a state
machine whose events are those atomic pieces; what a suspended function holds is a task or a pass. A run is any sequence
of events, so a theorem about `Run(events)` is a theorem about every interleaving. A send is an event whose answer is
arbitrary. Where a function cannot be interrupted, or when it is not, it is a method with its loops and in-place updates,
proved against the functions the machine is made of; lemmas named `...IsAnInterleaving` or `Uninterrupted...` connect
the two.

- `Types`, `Json`, `Bags`, `Cuts`, `RetryStore`: values, counting in maps, the greedy cut, and what the retry buffers share.
- `Batch`, `Chunks`, `EventLoop`, `RequestState`: the batch buffer, the chunk splitter, the pairing, sending and
  collecting code, and the creation, routing and cleanup of requests.
- `Serverless`: the whole serverless machine. `ServerlessLedger` (conservation), `ServerlessFiling` (attribution),
  `ServerlessLoss`, `ServerlessTheorems`, `ServerlessExactness` (what can be lost, exactly) and `ServerlessWitness` (that
  it is).
- `FailedPayloads`, `NormalRetry`, `LmiRetry`: failed agent payloads in Normal mode and on managed instances.
- `TelemetryBuffer`, `TelemetryRetry`, `MetricBuffer`, `MetricRetry`: the two other retry buffers.
- `ApmSession`: handshakes, the fatal latch, the reconnect signal and the in-flight flags, on Lambda and managed instances.
- `Labels`, `Rewriting`: the label parser and the rewriting of payloads.
- `ErrorSynthesis`, `ShutdownAccounting`: synthesized errors and the loss summary.

Histories in the states (what arrived, what was sent, why something was removed) and the serial numbers of payloads
exist only in the model. Limits, ages and names stand in the statements as plain numbers and strings, and statements
about what is sent or kept compare the data itself. Each list of what a payload can have suffered is closed: a payload is
counted in exactly one place.

## Where code and documentation differ

- `src/agent/batch.rs:206-208` promises that payloads are removed only after they were sent. `clear_batch_with_reports`
  removes whole entries, so a payload added to an entry while the entry is being sent is lost
  (`ServerlessWitness.LateLossHappens`). The five-minute sweep removes its entries even if its send
  fails. The promise holds of a send or sweep exactly if it removes nothing, or its send succeeded and no entry that it
  removes has changed since it was taken (`ServerlessExactness.RemovalLosesNothingExactlyIf`).
- `src/event_loop.rs:299` and `src/event_loop_lmi.rs:72-73` want no concurrent handshakes. Startup, the heartbeat of a
  managed instance and the shutdown do not look at one another's flags; `ApmSession.SingleFlightExactlyIf` says when they
  stay apart.
- `src/apm/connection.rs:49-50` says that no handshake is attempted while the fatal latch is set.
  `ApmSession.ConnectsAfterRejection` is a run on a managed instance that connects after a permanent rejection; the latch
  keeps its promise exactly if, when it is set, there is no session and no handshake is past its first check
  (`ApmSession.LatchHoldsExactlyIf`).
- The cap of 500 on failed agent payloads (`src/event_loop.rs:126-136`) is not kept by the merge of the managed-instance
  retry; `LmiRetry.CapHoldsExactlyIf` says in which runs it holds.
- `src/error_synthesis.rs:353` wants the ARN never to be empty, but a failed send is queued with the ARN as passed in
  (`ErrorSynthesis.RetryArnExactlyIf`).
- `src/apm/metric_api_buffer.rs:10-11` says that 5xx failures are buffered; all but 500, 502, 503 and 504 are dropped
  (`MetricBuffer.FailedMetricApiBuffer.SendReportMetrics`).
- `src/event_loop.rs:100-107` describes `DROPPED_AGENT_PAYLOADS` as the payloads evicted from a full buffer; payloads
  dropped for age during a retry are counted too, and those purged by `cleanup_old_failed_payloads` are not.
  `NormalRetry.DroppedMeansExactlyIf` says in which runs it is the number of evictions, and in which all that was lost.
- `src/event_loop_lmi.rs:386-387` says that the Normal retry uses the serverless endpoint; it uses the APM collector.
- The comment at `src/apm/app.rs:799` suggests that an already normalised metric name is left alone; the check on the
  suffix always passes (`Rewriting.EveryPassGrows`).

## Model

| member | source | states |
|---|---|---|
| `Batch.AgentBatchBuffer.AddToBatch` | src/agent/batch.rs:69-105 | the map, the key count and the oldest timestamp stay what the log of calls says; a second add appends and never erases a report |
| `Batch.AgentBatchBuffer.BatchAllPayloads` | src/event_loop.rs:1798-1812 | every payload of a request ends in its one entry, in order, with the given report |
| `Batch.AgentBatchBuffer.AttachReport` | src/telemetry/listener.rs:227-234 | a report is attached exactly if its request has an entry |
| `Batch.AgentBatchBuffer.ShouldSendByThreshold` | src/agent/batch.rs:110-122 | the loop counts the entries with reports and is true exactly from three on |
| `Batch.AgentBatchBuffer.GetAndClearBatch` | src/agent/batch.rs:125-138 | every entry once in some order, and an empty buffer with reset metadata |
| `Batch.AgentBatchBuffer.GetBatchWithReportsOnly` | src/agent/batch.rs:143-151 | exactly the entries with reports, each once; nothing changes |
| `Batch.AgentBatchBuffer.OldEntries` | src/agent/batch.rs:505-513 | exactly the entries at least 300,000 ms old, each once |
| `Batch.AgentBatchBuffer.ClearBatch` | src/agent/batch.rs:155-182 | the listed keys are gone whatever their entries hold by then, and the metadata is exact again |
| `Batch.BufferRefinesLog` | src/agent/batch.rs:69-182 | since a key was last removed: its payloads are its adds in call order, the report is the last one supplied, ARN and timestamp are those of the first add |
| `Batch.MetadataIsExact` | src/agent/batch.rs:94-104 | the count is the number of keys in every state; under a clock that never goes back the oldest timestamp is none exactly when empty, otherwise the minimum |
| `Batch.AllAddedPayloads` | src/agent/batch.rs:77-92 | adds under one key extend that key's payloads in order and touch no other key |
| `Cuts.GreedyCutIsOptimal` | src/agent/batch.rs:433-468 | the greedy cut is legal and no legal cut into contiguous non-empty runs has fewer runs, for every item size and bound |
| `Cuts.GreedyCutFlattens` | src/agent/batch.rs:433-468 | the runs concatenate back to the items |
| `Chunks.SplitIntoChunks` | src/agent/batch.rs:433-468 | the loop computes that greedy cut for estimated sizes, with 500 bytes and three per byte of the function name set aside |
| `Chunks.EstimateItemSize` | src/agent/batch.rs:472-489 | the estimate is the size function the cut is optimal for |
| `Chunks.ItemSizeChargesEvents` | src/agent/batch.rs:472-489 | the estimate is exactly the bytes of the item's log events plus 150 for each |
| `Chunks.ItemSizeOneMore` | src/agent/batch.rs:472-489 | one more payload or a report costs its bytes and 150, and nothing costs nothing |
| `Chunks.PushAgentLogEvents` | src/agent/batch.rs:187-204 | one event per payload in order, then the report's |
| `Chunks.ChunksKeepEvents` | src/agent/batch.rs:365-398 | the log events of all chunks in order are those of the collected items in order |
| `ServerlessTheorems.ChunksFitOneMegabyte` | src/agent/batch.rs:433-468 | every chunk of several items is estimated at one million bytes at most; an item too large for that goes alone |
| `EventLoop.SendBatched` | src/agent/batch.rs:209-289 | without interleaving: one event per payload, report and, outside APM mode, version line of every entry with a report; exactly these entries are removed, and exactly if the send succeeded |
| `EventLoop.VersionedEventsCarry` | src/agent/batch.rs:229-253 | with or without version lines the document carries each payload of its entries once and in order |
| `EventLoop.VersionedOneMore` | src/agent/batch.rs:229-253 | each entry adds its own events and, outside APM mode, one version line under its request id |
| `EventLoop.CleanupOld` | src/agent/batch.rs:501-574 | without interleaving, for every entry: it is sent, and is gone afterwards whether or not that succeeded, exactly if it was batched at least 300,000 ms ago |
| `EventLoop.RequestData.HandleReport` | src/telemetry/listener.rs:227-289 | a report joins the batch entry, or every buffered payload of its request, or waits; it is never filed elsewhere |
| `EventLoop.RequestData.DrainCandidate` | src/event_loop.rs:2226-2267 | one turn of the drain on any state: a request with report and payloads is paired and emptied, any other is left as it was |
| `EventLoop.RequestData.DrainLatePaired` | src/event_loop.rs:2188-2270 | afterwards no other request holds both a report and payloads; the current request is untouched; the count is the number of payloads moved |
| `EventLoop.DrainedPayloadsAreBatched` | src/event_loop.rs:2188-2270 | every payload moved by the drain sits in its request's batch entry, which has the report |
| `EventLoop.RequestData.ProcessRequest` | src/event_loop.rs:1874-2028 | with both settings of the flush flag: what is batched, sent at once, put back, and when the report leaves its slot |
| `EventLoop.RequestData.CollectForShutdown` | src/agent/batch.rs:294-349 | everything batched and buffered is collected, each buffered payload as an item under its request id with its report and ARN, and all buffers are left empty |
| `EventLoop.RequestData.ChunksForShutdown` | src/agent/batch.rs:294-378 | the chunks sent are the optimal cut of everything collected |
| `EventLoop.DrainCandidateIsAnInterleaving` | src/event_loop.rs:2226-2267 | the atomic drain is the machine's drain run without interruption |
| `EventLoop.ProcessRequestIsAnInterleaving` | src/event_loop.rs:1904-2028 | the atomic decision is the machine's take followed at once by its decision |
| `EventLoop.HandleReportIsAnInterleaving` | src/telemetry/listener.rs:235-276 | the atomic pairing is the machine's pairing run without interruption |
| `EventLoop.UninterruptedSendLosesNothing` | src/agent/batch.rs:209-289 | a successful send with nothing in between removes exactly what it sent |
| `EventLoop.UninterruptedSweepRemovesTheOld` | src/agent/batch.rs:501-574 | a sweep with nothing in between leaves exactly the entries younger than 300,000 ms, whether or not its send succeeds |
| `RequestState.RequestTable.CreateRequest` | src/request/mod.rs:334-400 | a created request starts with the orphans, which are orphans no more, and without a report, also if its id is known |
| `RequestState.RequestTable.Route` | src/request/mod.rs:565-683 | with and without an active request: sent at once, pushed to exactly one buffer, lost for want of one, or kept as an orphan |
| `RequestState.RequestTable.CleanupStale` | src/request/mod.rs:439-539 | exactly the requests created at least five invocations ago are removed, after each of their payloads was sent |
| `RequestState.SendsAre` | src/request/mod.rs:496-515 | what the cleanup sends is each buffered payload of each stale request, under the id of its own request |
| `RequestState.SendImmediately` | src/event_loop.rs:1822-1849 | exactly the payloads whose send failed are batched, in order and without a report |
| `RequestState.CreateIsTheEvent` | src/request/mod.rs:334-400 | the machine creates requests in the same way, files the orphans under the new one and discards the old buffer |
| `RequestState.RouteIsAnInterleaving` | src/request/mod.rs:565-683 | the machine's route run without interruption does what `Route` does, and an immediate send takes the ARN of its request or else the fallback |
| `RequestState.ImmediateIsAnInterleaving` | src/event_loop.rs:1822-1849 | the machine's immediate send run without interruption leaves in the batch what `SendImmediately` leaves |
| `RequestState.StaleIsAnInterleaving` | src/request/mod.rs:467-538 | the machine's cleanup of a stale request run without interruption removes it and discards nothing: each payload is settled or failed as its send went |
| `ServerlessLedger.ExactlyOnce` | src/event_loop.rs:1874-2104 | over every interleaving, stale-request cleanup included, and both flag settings, a payload that arrived is in exactly one place or left in exactly one recorded way, and nothing else is anywhere |
| `ServerlessLedger.EveryPayloadAccounted` | src/request/mod.rs:439-661 | the same as a balance for every payload value, by one step lemma per event |
| `ServerlessFiling.NothingMisfiled` | src/event_loop.rs:1874-2270 | every payload and report in a buffer, entry, task or shutdown item is under the request id it was first filed under, and that id never changes |
| `ServerlessFiling.ReportLeavesOnlyPaired` | src/event_loop.rs:1935-2028 | a pending report leaves its slot only with a payload of its own request, for a newer report, or when its request is created again or removed as stale |
| `ServerlessTheorems.HeldSentOrLost` | src/agent/batch.rs:209-289 | every payload that arrived is still held in one place, was sent, or is lost in one of six recorded ways, each naming its cause |
| `ServerlessTheorems.NoRiskNoLoss` | src/agent/batch.rs:209-289 | without one of the named risky events every payload is held or was sent, however many batch sends fail |
| `ServerlessTheorems.LateOnlyWhileSending` | src/agent/batch.rs:270-278 | a payload removed unseen was batched under a key after a snapshot of that key was taken and before the success of that very send, or the end of that very sweep, removed the key |
| `ServerlessTheorems.RemovedUnseenIsLost` | src/agent/batch.rs:155-159 | conversely, whatever a successful send or any sweep removes that its snapshot lacked is gone from every place |
| `ServerlessExactness.RemovalLosesNothingExactlyIf` | src/agent/batch.rs:206-208 | in every reachable state, the end of a removing send or sweep loses nothing if and only if it removes no entry, or its send succeeded and each entry it removes still holds exactly what was taken for sending |
| `ServerlessExactness.AlwaysEvolved` | src/agent/batch.rs:143-182 | in every reachable state an entry under a running snapshot has only been added to since, or all that it held then has left or is in a shutdown chunk |
| `ServerlessTheorems.SettledOnlyBySending` | src/agent/batch.rs:270-278 | a payload counts as settled only if a request that carried it succeeded |
| `ServerlessTheorems.DeliveredExactlyIf` | src/agent/batch.rs:270-278 | in every run, what counts as sent grows at an event by exactly the payloads of a request that succeeded |
| `ServerlessTheorems.SweepTakesExactlyTheOld` | src/agent/batch.rs:505-513 | in every run, a running sweep took exactly the entries batched at least 300,000 ms before it started, as they were then |
| `ServerlessTheorems.BatchSendTakesExactlyTheReported` | src/agent/batch.rs:143-151 | in every run, a running batch send took exactly the entries that had a report when it started, as they were then |
| `ServerlessWitness.LateLossHappens` | src/agent/batch.rs:206-208 | an explicit run, every event of it allowed by the guards of the code, in which a successful batch send loses a payload that was never sent |
| `ServerlessTheorems.ShutdownCollectsAll` | src/agent/batch.rs:294-428 | collecting empties the batch and every buffer, and the chunks carry the events of everything collected, in order |
| `ServerlessTheorems.ShutdownSendsEachOnce` | src/agent/batch.rs:294-428 | in every reachable state the chunks carry exactly one agent event for each batched or buffered payload and none for any other |
| `ServerlessLoss.NothingLostWithoutRisk` | src/agent/batch.rs:501-574 | in a run without risky events no loss of any kind occurs and every running snapshot agrees with the batch |
| `RetryStore.LeftoverIsASubsequence` | src/apm/telemetry_buffer.rs:113-215 | what any of the three retry loops leaves is a subsequence of what it took, exactly the items of which something is left |
| `FailedPayloads.FailedAgentPayloads.PushCapped` | src/event_loop.rs:126-136 | the push keeps the newest 500, evicts the oldest when full and counts what it evicts |
| `FailedPayloads.FailedAgentPayloads.RetryPass` | src/event_loop.rs:2581-2677 | an uninterrupted pass leaves, in order and with one more retry, exactly the payloads that failed less than 25 hours before the clock read for them and were not delivered; the counter grows by the number of the older ones |
| `FailedPayloads.PassLeavesASubsequence` | src/event_loop.rs:2603-2670 | what the pass leaves is a subsequence of the old buffer: exactly the payloads younger than 25 hours that were not delivered |
| `FailedPayloads.OneMoreRetry` | src/event_loop.rs:2605 | a payload that is put back differs from itself by one retry only |
| `FailedPayloads.DroppedForAgeIs` | src/event_loop.rs:2611-2619 | a pass drops for age exactly the payloads that failed at least 25 hours ago |
| `FailedPayloads.FailedAgentPayloads.CleanupOld` | src/event_loop.rs:2681-2700 | the purge keeps, in order and as they are, exactly the payloads that failed less than 25 hours ago |
| `FailedPayloads.PurgeKeepsTheRecent` | src/event_loop.rs:2686-2689 | a payload survives the purge exactly if it failed less than 25 hours ago, that is at most 24 whole hours |
| `FailedPayloads.PurgeKeepsOrder` | src/event_loop.rs:2686-2689 | the survivors are the payloads at increasing positions |
| `NormalRetry.EveryPayloadIsBooked` | src/event_loop.rs:126-136 | over every interleaving each accepted payload is in exactly one place, the drop counter is exact and the buffer holds at most 500 |
| `NormalRetry.TotalsBalance` | src/event_loop.rs:2548-2700 | accepted equals buffered plus in running passes plus sent plus the drop counter plus the purged ones, the one uncounted exit |
| `NormalRetry.DroppedMeansExactlyIf` | src/event_loop.rs:100-107 | the drop counter is evictions plus those aged out in a pass; it is the evictions alone exactly if no pass of the run ages anything out, and all that was lost exactly if nothing is purged |
| `NormalRetry.UninterruptedPass` | src/event_loop.rs:2581-2670 | the machine's pass run without interruption leaves what the loop leaves |
| `NormalRetry.SentExactlyIfYoung` | src/event_loop.rs:2607-2619 | in every run, the next payload of a pass is sent exactly if it failed less than 25 hours before the clock read for it; otherwise it is dropped and counted |
| `NormalRetry.YoungNeverAges` | src/event_loop.rs:2611-2619 | a payload that failed less than 25 hours before every clock that a pass of the run reads is never dropped for age |
| `NormalRetry.FailedWhenPushed` | src/event_loop.rs:2548-2571 | the time of failure is the clock of the push that brought the payload in, however often it was put back since |
| `LmiRetry.AlwaysInArrivalOrder` | src/event_loop_lmi.rs:388-490 | one pass at a time and any arrivals: the line of waiting payloads is always in arrival order, and a payload is in it or left for a justified cause |
| `LmiRetry.InOrderAndTriedTenTimes` | src/event_loop_lmi.rs:429-466 | the buffer is in arrival order, no payload is tried more than ten times, and the causes are a delivery, the 24-hour limit, the retry limit or an eviction |
| `LmiRetry.SentExactlyIf` | src/event_loop_lmi.rs:429-452 | in every run, the next payload of a pass is sent exactly if it failed less than 24 hours before the pass began and was tried fewer than ten times; otherwise it leaves for the first reason that applies |
| `LmiRetry.FailedWhenPushed` | src/event_loop_lmi.rs:429-432 | the time of failure is the clock of the push that brought the payload in |
| `LmiRetry.SizeGrowsByPasses` | src/event_loop_lmi.rs:484-488 | the uncapped merge adds at most one buffer's worth per pass |
| `LmiRetry.ReachesTheBound` | src/event_loop_lmi.rs:409-413 | for every number of passes an explicit run reaches that bound, so no smaller one holds |
| `LmiRetry.CapHoldsExactlyIf` | src/event_loop_lmi.rs:484-488 | a run is always within the cap of 500 exactly if at the end of each pass what is put back and what arrived during it are at most 500 together |
| `LmiRetry.PassFitsExactlyIf` | src/event_loop_lmi.rs:388-490 | the same of the buffer that `RetryPass` leaves |
| `LmiRetry.MergeExceedsTheCap` | src/event_loop_lmi.rs:409-413 | an explicit run that leaves 501 payloads in the buffer |
| `LmiRetry.RetryPass` | src/event_loop_lmi.rs:388-490 | without a session everything goes back in front of the newest 500 arrivals; with one, the payloads younger than 24 hours, tried fewer than ten times and not delivered, in order and with one more try, in front of the newest 500 |
| `LmiRetry.SurvivorsExactly` | src/event_loop_lmi.rs:427-482 | which payloads survive a pass, by age, tries and delivery |
| `LmiRetry.PassIsTheLoop` | src/event_loop_lmi.rs:427-482 | a pass of the machine with only arrivals in between leaves what the loop leaves |
| `LmiRetry.WholePassIsTheMethod` | src/event_loop_lmi.rs:388-490 | and from the take of the buffer to the merge, what `RetryPass` leaves |
| `TelemetryBuffer.ProcessedData` | src/apm/collector.rs:272-281 | a null or empty first element becomes the run id, any other data gets the run id in front, empty data stays empty |
| `TelemetryBuffer.DoublePrefixShows` | src/apm/collector.rs:272-281 | forming wire data twice would put two run ids in front, so it can be told from forming it once |
| `TelemetryBuffer.FormIsRunIdAndContent` | src/apm/collector.rs:166-188 | either wire form, element by element: the run id in place of a placeholder or in front of the data, and for synthesized errors the run id, their number with a reservoir of 100, and the errors |
| `TelemetryBuffer.FailedTelemetryBuffer.BufferFailed` | src/apm/telemetry_buffer.rs:42-72 | a first failure is pushed within the cap of 500 |
| `TelemetryBuffer.FailedTelemetryBuffer.RetryOne` | src/apm/telemetry_buffer.rs:113-215 | one turn on any buffer: exactly an item younger than 61 minutes of one of the ten known types is sent, under the session's run or the stored one; a restart puts it back within 500, any other failure puts it back uncapped if it was refused fewer than nine times before |
| `TelemetryBuffer.FailedTelemetryBuffer.RetryBuffered` | src/apm/telemetry_buffer.rs:85-223 | an uninterrupted pass over a buffer of any size leaves what its turns leave, less the oldest that restarts evict, and sends exactly the wire forms of the data it took, synthesized errors in their own form |
| `TelemetryBuffer.NothingEvictedExactlyIf` | src/apm/telemetry_buffer.rs:190-203 | a pass evicts nothing exactly if no restart finds 500 items put back before it |
| `TelemetryBuffer.CappedEvictsNothing` | src/apm/telemetry_buffer.rs:190-203 | which is so of every pass over at most 500 items |
| `TelemetryBuffer.PassLeavesASubsequence` | src/apm/telemetry_buffer.rs:190-212 | an uninterrupted pass keeps order and data of exactly the items sent and then either met by a restart, which keeps the count, or refused for less than the tenth time, which adds one |
| `TelemetryBuffer.WiresAreInOrder` | src/apm/telemetry_buffer.rs:113-168 | the bodies a pass sends are those of exactly the items young enough and of a known type, in the order of the buffer |
| `TelemetryBuffer.SentExactlyIf` | src/apm/telemetry_buffer.rs:113-158 | the age limit in milliseconds and the ten types by name |
| `TelemetryRetry.EveryItemIsBooked` | src/apm/telemetry_buffer.rs:85-223 | over every interleaving an item waits in one place, was sent once or was lost once |
| `TelemetryRetry.AlwaysFaithful` | src/apm/telemetry_buffer.rs:128-168 | in every reachable state items keep their original data and count only non-restart refusals, and every body sent is the original data under its session's run |
| `TelemetryRetry.BufferedAndSentAreFaithful` | src/apm/telemetry_buffer.rs:59-71 | buffered counts stay below ten, an item is refused at most ten times, the length is at most 500 plus the uncapped pushes since the last take, and every body is the original data with the run id of its session in place of its placeholder or in front of it, once |
| `TelemetryRetry.SentExactlyIfYoung` | src/apm/telemetry_buffer.rs:113-128 | in every run, the next item of a pass is sent under the session its pass read exactly if it failed first less than 61 minutes before; otherwise it is lost unsent |
| `TelemetryRetry.PutBackExactlyIf` | src/apm/telemetry_buffer.rs:180-212 | in every run, a restart puts the item back as it was, evicting the oldest of 500, and any other failure exactly if it was refused fewer than nine times before |
| `TelemetryRetry.OriginalIsTheFailure` | src/apm/telemetry_buffer.rs:42-60 | what the statements call original is what the first failure handed over, with its clock |
| `MetricBuffer.FailedMetricApiBuffer.BufferFailed` | src/apm/metric_api_buffer.rs:44-74 | empty batches are ignored, others pushed within the cap of 1000, to be retried no sooner than 1000 ms per second that the answer asked for |
| `MetricBuffer.FailedMetricApiBuffer.RetryOne` | src/apm/metric_api_buffer.rs:100-151 | a batch whose retry time has not come is put back as it is and not sent; any other is sent exactly if it failed first less than 61 minutes ago, and put back exactly after a failure worth a retry that was not its tenth send, with the retry time the answer asked for |
| `MetricBuffer.FailedMetricApiBuffer.RetryBuffered` | src/apm/metric_api_buffer.rs:77-160 | an uninterrupted pass leaves exactly that and never grows the buffer |
| `MetricBuffer.PassLeavesASubsequence` | src/apm/metric_api_buffer.rs:100-151 | it keeps the order; a batch whose retry time has not come stays as it was, and of the others exactly those sent and to be retried stay, with one more try |
| `MetricBuffer.FailedMetricApiBuffer.SendReportMetrics` | src/apm/app.rs:444-471 | a batch is buffered exactly after a network error or one of six statuses, so of the 5xx ones after 500, 502, 503 and 504, and otherwise dropped |
| `MetricRetry.EveryBatchIsBooked` | src/apm/metric_api_buffer.rs:77-166 | over every interleaving a batch waits in one place or left once |
| `MetricRetry.PermanentNeverReturns` | src/apm/metric_api_buffer.rs:132-135 | a batch refused for good or delivered never waits again |
| `MetricRetry.TenSendsAtMost` | src/apm/metric_api_buffer.rs:121-149 | buffered batches count their sends, at most nine, so a batch gets at most ten |
| `MetricRetry.AlwaysLimited` | src/apm/metric_api_buffer.rs:56-60 | in every reachable state, together with the cap up to the uncapped pushes since the last take |
| `MetricRetry.SentExactlyWhenDue` | src/apm/metric_api_buffer.rs:100-121 | in every run, a pass sends its next batch exactly if it started no sooner than the last answer about the batch asked for and less than 61 minutes after the first failure; sooner, the batch goes back as it is, later, it is dropped |
| `MetricRetry.PutBackExactlyIf` | src/apm/metric_api_buffer.rs:123-151 | in every run, an answer worth a retry puts the batch back exactly if it was sent fewer than ten times, with the delay asked for |
| `MetricRetry.HistoryIsOfTheAnswers` | src/apm/metric_api_buffer.rs:44-60 | the first failure and the last answer that these statements speak of change only with a first failure and an answer |
| `ApmSession.AlwaysSound` | src/event_loop_lmi.rs:69-95 | on both deployments, over every interleaving: each in-flight flag is set exactly while the one task it guards runs, and each signal invalidates at most one session |
| `ApmSession.SessionChangesExactlyIf` | src/event_loop.rs:242-252 | in every run, a session ends exactly when the loop on Lambda invalidates the one it saw after taking a signal, or a heartbeat that took one finds it, and begins exactly when a successful handshake stores it |
| `ApmSession.SignalChangesExactlyIf` | src/apm/collector.rs:55-66 | in every run, a signal is there until it is taken, and the loop on Lambda acts on it exactly if it then finds a session |
| `ApmSession.HandshakeStartsExactlyIf` | src/event_loop_lmi.rs:143-152 | in every run, the exact conditions under which startup, an invoke, a heartbeat and the shutdown start a handshake |
| `ApmSession.SingleFlightExactlyIf` | src/event_loop_lmi.rs:143-152 | there are never two handshakes in a run exactly if no guard lets one start while the flag of another is set |
| `ApmSession.LambdaNeverOverlaps` | src/event_loop.rs:300-307 | on Lambda startup and invokes share one flag, so until the shutdown no run has an overlap and every state is safe |
| `ApmSession.AlwaysSafe` | src/event_loop.rs:300-364 | in every run without an overlap: one handshake task at most, none while connected or latched; failed attempts exactly three per cycle when idle and not latched |
| `ApmSession.LatchStaysSet` | src/apm/connection.rs:49-61 | in every run the latch never opens, and once it is set no handshake is spawned and no further cycle counted |
| `ApmSession.LatchHoldsExactlyIf` | src/apm/connection.rs:49-61 | once latched, whatever follows, nothing is attempted or counted and no session comes back, exactly if at that moment there is no session and no handshake is past its first check |
| `ApmSession.FatalIsForever` | src/apm/connection.rs:49-61 | that is so after every run that was free of overlaps up to the latch, and then no handshake is left either |
| `ApmSession.ConnectsAfterRejection` | src/event_loop_lmi.rs:146-152 | an explicit run on a managed instance: a heartbeat during a slow startup handshake, and a session after the latch |
| `ApmSession.ConnectStats.Connect` | src/apm/app.rs:57-135 | the burst of three: what success, rejection and exhaustion each leave in the counters and the latch |
| `ApmSession.BurstIsConnect` | src/apm/app.rs:57-135 | a handshake task of the machine run without interruption counts and latches as that loop |
| `Labels.ParseNewRelicLabels` | src/config/mod.rs:841-900 | the loops compute the declarative parse for every input, set or unset |
| `Labels.ParsedIsCanonical` | src/config/mod.rs:841-900 | for every input: empty, or distinct keys in first-occurrence order with the last value, at most 64 of them; each part has 1 to 255 characters and is trimmed unless it was cut |
| `Labels.RoundTrip` | src/config/mod.rs:812-900 | every list of at most 64 labels with distinct keys and parts of up to 255 characters is recovered from its rendering, with any white space around keys, values and segments |
| `Labels.PaddedReads` | src/config/mod.rs:860-900 | any padded list, with repeated keys and long parts, is read as its canonical form: parts cut to 255 characters, the first 64 keys |
| `Labels.WellFormedExactlyIf` | src/config/mod.rs:862-882 | a segment is accepted exactly if it is a key and a value around one colon, neither blank, with any white space |
| `Labels.TrimSplits` | src/config/mod.rs:871-872 | what trimming cuts off is white space and what it leaves has none at its ends |
| `Labels.SplitJoins` | src/config/mod.rs:847 | the pieces of a split hold no separator and join to the string |
| `Labels.OuterSeparatorsNeverMatter` | src/config/mod.rs:849-858 | separators and white space at either end, in any mix, never change the result |
| `Labels.EmptyExactlyIfMalformed` | src/config/mod.rs:862-882 | no labels come out exactly if all segments are blank, or one that has a non-blank one at or before it and at or after it is malformed |
| `Labels.Insert` | src/config/mod.rs:887-892 | a repeated key is overwritten in place, a new one appended |
| `Labels.PutAllIsCanonical` | src/config/mod.rs:887-892 | folding the labels gives each key once, first-occurrence order, last value |
| `Rewriting.InjectCustomTagAttributes` | src/apm/app.rs:601-645 | in place, the injection of every matching event, and no change at all without tags |
| `Rewriting.InjectionIsIdempotent` | src/apm/app.rs:601-645 | injecting twice is injecting once |
| `Rewriting.InjectionOnlyAddsMissingTags` | src/apm/app.rs:612-644 | only user attributes of matching events change, existing ones keep their value, and exactly the missing tags are added |
| `Rewriting.InjectionCommutesWithNormalisation` | src/apm/app.rs:601-756 | tags may be injected before or after the analytic and span names are normalised |
| `Rewriting.NormalisersAreIdempotent` | src/apm/app.rs:659-756 | the analytic, span, error, custom and sample normalisers are idempotent on every JSON tree |
| `Rewriting.NormalizeAnalyticEventData` | src/apm/app.rs:659-702 | in place, event by event, the analytic rewriting whose idempotence and commutation are proved |
| `Rewriting.AnalyticEventExactly` | src/apm/app.rs:680-700 | a `Transaction` whose name has no slash gets "OtherTransaction/Ruby/" in front of it; every other event is unchanged |
| `Rewriting.NormalizeSpanEventData` | src/apm/app.rs:706-756 | in place, the span rewriting |
| `Rewriting.SpanEventExactly` | src/apm/app.rs:724-754 | a `Span` whose name has no slash gets the prefix, and its transaction name, if any, becomes the same; every other event is unchanged |
| `Rewriting.NormalizeErrorEventData` | src/apm/app.rs:819-862 | in place, the error rewriting |
| `Rewriting.ErrorEventExactly` | src/apm/app.rs:838-860 | each of the two transaction names gets the prefix exactly if it has no slash; nothing else changes |
| `Rewriting.NormalizeCustomEventData` | src/apm/app.rs:866-898 | in place, the custom-event rewriting |
| `Rewriting.CustomEventExactly` | src/apm/app.rs:884-896 | the transaction name gets the prefix exactly if it has no slash; nothing else changes |
| `Rewriting.NormalizeTransactionSampleData` | src/apm/app.rs:902-930 | in place, the rewriting of transaction samples |
| `Rewriting.SampleExactly` | src/apm/app.rs:914-928 | the third element gets the prefix exactly if it is a string without a slash; nothing else changes |
| `Rewriting.NormalizeMetricData` | src/apm/app.rs:760-815 | in place, the metric rewriting |
| `Rewriting.MetricNameExactly` | src/apm/app.rs:788-813 | a name with prefix and slash gets "/Ruby/" in place of its last slash, one with neither gets the whole prefix, any other stays |
| `Rewriting.MetricEventExactly` | src/apm/app.rs:776-814 | of a metric only its name changes, to that |
| `Rewriting.PassesTouchTheirEvents` | src/apm/app.rs:659-930 | each pass rewrites each event of its own list where it is, and touches nothing else |
| `Rewriting.FindLastSlash` | src/apm/app.rs:795 | the search from the end finds the slash after which there is none |
| `Rewriting.EveryPassGrows` | src/apm/app.rs:790-806 | a metric name with the prefix and a slash grows by one segment on every pass |
| `Rewriting.MetricNameIdempotentExactlyIf` | src/apm/app.rs:788-813 | the metric renaming is idempotent on a name exactly if the name has the prefix or a slash but not both |
| `Rewriting.MetricDataIdempotentExactlyIf` | src/apm/app.rs:760-815 | and on a tree exactly if that holds of all its metric names |
| `Rewriting.MetricDataNotIdempotent` | src/apm/app.rs:807-813 | a plain function name is a counterexample |
| `ErrorSynthesis.TwoAttemptsAtMost` | src/error_synthesis.rs:62-120 | each raised error is attempted at most twice, and every key marked as sent was delivered |
| `ErrorSynthesis.SentExactlyIfNew` | src/error_synthesis.rs:212-232 | in every run, an error is sent exactly if none of its type was sent for its request since the set of sent types was last cleared, with the ARN it names or else the first one known |
| `ErrorSynthesis.QueuedExactlyIfFirstFails` | src/error_synthesis.rs:232-252 | in every run, a failed first send queues the error as it was raised, a successful one marks its type for the request, and the answer to a retry queues nothing |
| `ErrorSynthesis.EveryRaiseIsBooked` | src/error_synthesis.rs:213-252 | a raised error is in its first send, queued, in its retry, or over; never twice |
| `ErrorSynthesis.NeverQueuedAgain` | src/error_synthesis.rs:66-75 | once its first send is over and it is out of the queue, an error is in the queue at no later time of the run |
| `ErrorSynthesis.RetryArnExactlyIf` | src/error_synthesis.rs:354-404 | a first send of a Lambda error always has an ARN; a retry has one exactly if the raised error had |
| `ErrorSynthesis.EmptyArnOnRetry` | src/error_synthesis.rs:393-402 | an explicit run whose retry carries an empty ARN |
| `ErrorSynthesis.SynthesizedErrors.Send` | src/error_synthesis.rs:336-404 | suppressed if the type, by its name, was sent for the request; otherwise sent with the ARN it names or else the first one known, then marked on success and queued on failure with the ARN as passed in |
| `ErrorSynthesis.SynthesizedErrors.RetryFailed` | src/error_synthesis.rs:62-120 | the queue is left empty, successes are marked, failures dropped |
| `ShutdownAccounting.ReportedIdsAreExact` | src/event_loop.rs:113-121 | the reported id lists are strictly increasing and contain exactly the ids present |
| `ShutdownAccounting.AffectedExactlyIf` | src/event_loop.rs:725-750 | an invocation is affected exactly if some payload, some telemetry item or some metric left behind carries its id |
| `ShutdownAccounting.AffectedAtMostRemaining` | src/event_loop.rs:725-750 | the affected invocations never outnumber the lost items when every metric batch is about one request |
| `ShutdownAccounting.ConvertedIsAboutOneRequest` | src/apm/metric_converter.rs:246-347 | every converted metric carries the id of its invocation |
| `ShutdownAccounting.BufferedBatchesAreAboutOneRequest` | src/apm/metric_api_buffer.rs:77-166 | retries never change what a buffered batch is about |
| `ShutdownAccounting.SummaryNeverOverstates` | src/event_loop.rs:725-750 | after any runs of the three buffers whose metric batches are converter outputs, the affected count is at most the item count |

## Left out

- HTTP, TLS, compression, serialization and the named pipe: a send is an event with an arbitrary answer, and a payload is its bytes.
- Clocks and timeouts: every event or atomic piece that reads the clock takes `now` as an input, once per piece; whole hours and minutes are truncated as in the code.
- Lock poisoning, panics and aborted tasks; iteration over concurrent maps is in an arbitrary order.
- The five-invocation threshold of `cleanup_old_request_buffers` (src/request/mod.rs:439-539) is in `RequestState.RequestTable.CleanupStale`; in the machine any request may be treated as stale at any time. Its APM-mode branch, which hands the payloads to the retry buffer, and its wait for immediate sends under way are left out: an immediate send goes on by itself.
- `maybe_spawn_batch_send` is not a guard in the machine: a batch send may start at any time, which covers every threshold and flag setting; only the witness run respects it.
- Trace extraction: the machine may suspend a payload where extraction would, whether or not trace collection is on; the log processor it feeds is not part of this model.
- The detection of versions behind the version line, and the context and log-group fields of the documents that are sent.
- Shutdown does not collect orphaned payloads, reports without a payload, or what a suspended task still holds; the ledger counts them as held.
- Exactly-once delivery is not claimed: two sends may share a snapshot, and `delivered` means sent at least once.
- LMI routing by the request id embedded in a payload, and the telemetry of LMI hosts.
- ServerlessLedger.ExactlyOnce: is about payloads; a report that is replaced by a newer one or arrives for an unknown request is not counted.
- LmiRetry.AlwaysInArrivalOrder: assumes one pass at a time, as the heartbeat loop runs them.
- LmiRetry.SizeGrowsByPasses: bounds the buffer by the number of passes, since the code has no constant bound; `LmiRetry.CapHoldsExactlyIf` says when 500 is one.
- ApmSession.AlwaysSafe: is about runs without an overlap; that such runs are the only safe ones is `ApmSession.SingleFlightExactlyIf`.
- MetricBuffer.FailedMetricApiBuffer.BufferFailed: only the delay-seconds form of `Retry-After` (section 10.2.3 of RFC 9110) is modelled, and a date beyond the range of the date type is not an error.
- ErrorSynthesis.TwoAttemptsAtMost: counts attempts per raised error; the same error raised again before it was marked as sent is another one, since the code only suppresses what was sent.
- ShutdownAccounting.SummaryNeverOverstates: the branch that inserts the id of a payload that could not be processed (src/event_loop.rs:681-683) never runs, because `process_and_send_agent_payload` always succeeds; it is not modelled.
- Numbers in metrics are integers or opaque values; JSON objects are maps without an order of keys.
- Unbounded counters: `retry_count`, the drop counter and the connect counters do not wrap.
- `Datacenter`, deployment detection, id generation, log formatting, the wrapper scripts and the environment: plumbing that would only add easy members.
