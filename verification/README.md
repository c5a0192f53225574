# Proofs about the gateway, the evaluation and the operations scripts

The project models the parts of the repository that must be right under failure, and proves what they promise.

**Runtime event delivery.** `StreamGroup` is the Redis consumer group: stream, last-delivered pointer, pending list with
idle clocks and delivery counts, dedupe keys, dead-letter log. `Delivery` lets any number of gateway processes act on it
at will, with lost requests, lost replies, crashes, time, key expiry and re-creation of the group; `DeliverySafety` keeps
the invariant and `DeliveryResults` states the promises. `EventPump` holds the reader and the pump as classes whose
methods are runs of those steps. `PendingScan` is the cursor over the pending list. `RuntimeBus` and `Projection` are the
in-memory projection and its exactly-once history. `Permissions` is the reserve, publish, restore protocol as interleaved
steps, and `PermissionRaces` shows where it fails.

**Evaluation.** `Similarity`, `Embedding` and `Ranking` are cosine similarity, chunk ranking, the embedding stage, NDCG
and reciprocal rank over real numbers; `FailureMining` the retrieval metrics and the blame for lost evidence; `Alignment`
the greedy matching of annotated regions with produced nodes.

**Bytes and loops.** `Resp` is the RESP client, `PdfFile` and `PdfFixture` the PDF writer with a reader for it,
`LogLine` and `LogSummary` the log line and its splitter, `RotatingLog` log rotation, `DeadLetterPaging` the dead-letter
pages, `BatchDelete` the web store's batch delete. `Decimal` prints and parses numbers.

**Values.** Beside the laws stand the values, in the source's own numbers, words and codes and apart from the functions that
compute them: `DeliveryOutcomes`, `AppendedEvents`, `RankingValues`, `MetricValues`, `AlignmentValues`, `RespReplies`,
`PdfText`, `LogColumns`, `PageContents` and `BatchReports`.

Objects that update their fields are classes, loops are methods with invariants, and each method is tied to a function of
its inputs or old state; the lemmas are about those functions, over all inputs and all runs.

## What the proofs found

- Seeding a run that the pump has already adopted overwrites its log; an acknowledged event is then lost
  (`LateSeedDropsAcknowledgedEvent`). Every other handler operation keeps it (`HandlerKeepsLogsExactly`). The other way
  round, adopting a run that a handler seeded meanwhile empties its log (`AdoptionDropsSeededEvents`,
  `AdoptionKeepsLogsExactly`).
- A batch takes the status of its first status-bearing event, although the comment at in_memory_bus.go:326 says the last
  one decides (`BatchAgainstSingles`, `BatchStopsAtFirstStatus`). The pump only appends single events.
- A permission request that arrives under a second event id, or again after its run was re-seeded, is published twice
  (`TwoEventsPublishTwice`, `ReseedPublishesTwice`). Commands of a run can carry different trace ids, exactly when none
  was stored before the first of them (`OneTraceExactlyWhenStored`, `ResolverRaceIsReachable`).
- The dead-letter page clears its cursor in every short batch, even if the limit left part of it unread: fewer than 100
  messages with more matches than the limit never show the rest (`ShortStreamLosesMatches`).
- U+001C to U+001E survive the log's normalisation but break lines for the splitter, so such a record is not counted
  (`SeparatorInTraceLosesRecord`).
- NDCG exceeds 1 when a ranking repeats a chunk id behind an all-positive front (`RepeatedHitExceedsOne`,
  `NdcgAboveOneExactlyWhen`).
- Without the policy's cutoff among those evaluated, no loss is attributed (`AttributionNeedsTheCutoff`).
- A single delete during a batch strands the batch (`SingleDeleteLosesTheOpenDocument`). A delete request left open
  outlives a batch whose own requests are all refused, and approving it deletes a document that no report mentions
  (`StaleApprovalExample`, `StartTellsTheTruthExactlyWhen`).

## Model

| member | source | states |
|---|---|---|
| DeliveryResults.NothingIsLost | apps/gateway/internal/orchestrator/event_pump.go:269-376 | Over every run of reads, claims, lost replies, crashes, key expiry and group loss: whatever the group has handed out is pending, acknowledged or dead-lettered, and only well-formed messages are acknowledged. |
| DeliveryResults.AcknowledgedIsProjected | apps/gateway/internal/orchestrator/event_pump.go:321-355 | In every run whose seeds keep logged events, an acknowledged message's event is in its run's log at the process that acknowledged it, while that process lives. |
| DeliveryResults.AcknowledgedExactlyOnce | apps/gateway/internal/orchestrator/event_pump.go:321-355 | If moreover the seeded lists have distinct ids, an acknowledged message's event occurs once and only once in that log, whatever was redelivered, replayed or adopted. |
| DeliveryResults.LeavesPendingOnlyWhenSafe | apps/gateway/internal/orchestrator/event_pump.go:269-376 | A single step removes an entry from the pending list only with the whole group, by acknowledging an event that is in the log, or by a burial that leaves a dead-letter record. |
| DeliveryResults.PendingIsClaimable | apps/gateway/internal/redis/reader.go:151-197 | From every reachable state, any resting process can get any pending message delivered again after four base intervals, whoever owns it. |
| DeliveryResults.DeadLettersAreJustified | apps/gateway/internal/orchestrator/event_pump.go:329-341 | A well-formed event is dead-lettered only from a reclaimed delivery numbered 3 or more, with the retry code, at least 15 s after its first delivery; every other record carries the code of its decoding error. |
| DeliveryOutcomes.GivesUpExactlyAtThree | apps/gateway/internal/orchestrator/event_pump.go:329-341 | Over every run: the third reclaimed delivery of an event that neither process nor control plane can place takes its message off the pending list and on record with the retry-exhausted code; any earlier one leaves the server as it was. |
| DeliveryOutcomes.UnprojectableIsBuriedAtThree | apps/gateway/internal/orchestrator/event_pump.go:306-341 | In every world, what such a delivery does to pending list, records, keys and counters. |
| DeliveryOutcomes.RejectedIsBuried | apps/gateway/internal/redis/reader.go:263-303 | A message the decoder rejects is buried at once with the code of the first check it fails, counted as malformed. |
| DeliveryOutcomes.ProjectableIsAcknowledged | apps/gateway/internal/orchestrator/event_pump.go:315-359 | An event of a known run, or of one whose task and run the control plane returns, is appended and acknowledged, whatever its delivery count. |
| DeliveryOutcomes.ReadHandsOut | apps/gateway/internal/orchestrator/event_pump.go:285-291 | A read hands out the next messages, thirty-two at most, for the first time, pending for the reader. |
| DeliveryOutcomes.ClaimNeedsIdle | apps/gateway/internal/redis/reader.go:168-211 | A claim goes through exactly after five, ten or twenty idle seconds by the delivery count seen, and changes owner, clock and count. |
| DeliveryOutcomes.LostReplyHasActed | apps/gateway/internal/orchestrator/event_pump.go:269-292 | A read or claim whose reply is lost has acted on the server like one that succeeded and leaves the process with nothing; one whose request is lost has not acted. |
| DeliveryOutcomes.FailedEndAbandonsBatch | apps/gateway/internal/orchestrator/event_pump.go:293-303 | The same for acknowledgement and burial, and either failure abandons the rest of the batch. |
| DeliveryOutcomes.DueIs | apps/gateway/internal/redis/reader.go:168-172 | An entry is asked for exactly after five, ten or twenty idle seconds by its delivery count. |
| DeliveryOutcomes.AnswerIs | apps/gateway/internal/redis/reader.go:173-184 | A claim fails exactly without a reply or without the group, and is granted exactly to a pending entry idle for long enough. |
| DeliveryResults.WaitingIsAccounted | apps/gateway/internal/redis/reader.go:168-187 | For every pending message the time since its first delivery is at least its idle time plus all idle times its earlier claims required. |
| DeliveryResults.OneRecordPerKey | apps/gateway/internal/redis/go_redis_reader.go:28-51 | Per message, the dead-letter records number the expired dedupe keys plus one if a key is live; without expiry there is at most one record, and one exactly when the key exists, through group re-creation and replay. |
| DeliveryResults.HandlerKeepsLogsExactly | apps/gateway/internal/orchestrator/in_memory_bus.go:770-783 | A handler operation keeps every logged event if and only if it does not seed a run with a list lacking an event of the run's log. |
| DeliveryResults.AdoptionKeepsLogsExactly | apps/gateway/internal/orchestrator/event_pump.go:316-324 | Adopting a run keeps every logged event if and only if the run's log is still empty when the control plane's answer arrives. |
| DeliveryResults.AdoptionDropsSeededEvents | apps/gateway/internal/orchestrator/event_pump.go:316-328 | A handler that seeds the run while the pump waits for the control plane loses its initial events: the log ends as the pump's event alone. |
| DeliveryResults.LateSeedDropsAcknowledgedEvent | apps/gateway/internal/orchestrator/in_memory_bus.go:780-782 | The pump may adopt a run, log and acknowledge its first event, and the handler that created the run then seeds it: the acknowledged event is gone from the log. |
| DeliveryResults.JustReadIsReachable | apps/gateway/internal/orchestrator/event_pump.go:285-291 | The starting state of that race is reached by four protocol steps. |
| DeliverySafety.RunKeepsInv | apps/gateway/internal/orchestrator/event_pump.go:269-376 | The protocol invariant (times, owners, counts, accounts, records and processes) survives every sequence of steps. |
| StreamGroup.RetryIdleBounds | apps/gateway/internal/redis/reader.go:199-211 | The required idle time is once, twice or four times the base for the first, second and any later delivery, and five seconds without a base. |
| EventPump.EventPump.RunOnce | apps/gateway/internal/orchestrator/event_pump.go:269-304 | One cycle, completely: a due reclaim scans as specified and ends the cycle on an error, carries the claimed delivery and nothing else, or goes on to read one batch and process all of it; counters, cursor and report follow, and the world stays reachable. |
| EventPump.EventPump.ProcessBatch | apps/gateway/internal/orchestrator/event_pump.go:293-303 | The loop over a batch carries every delivery to its end in order and stops at the first failed call; the world, the events projected, the failure and all four counters are those of the specification. |
| EventPump.EventPump.ProcessDelivery | apps/gateway/internal/orchestrator/event_pump.go:306-359 | One delivery is taken, loaded, tried again, acknowledged or buried by the specified steps; results, malformed, deferred and dead-letter counters follow its message and outcome. |
| EventPump.RuntimeEventReader.ClaimStaleDelivery | apps/gateway/internal/redis/reader.go:151-197 | The scan looks at one page from the cursor, judges each entry by its own delivery count, claims at most one, and leaves the world and cursor of the specification; an entry taken by others in between is passed over. |
| EventPump.RuntimeEventReader.WalkPage | apps/gateway/internal/redis/reader.go:168-190 | The loop over the page leaves the world and verdicts of the specified walk and stops at the first entry claimed or failed. |
| PendingScan.PageIsExact | apps/gateway/internal/redis/reader.go:156-166 | A page is the first entries of the pending list from the cursor on, in ascending order, and nothing in between is missing. |
| PendingScan.CursorSkipsNothing | apps/gateway/internal/redis/reader.go:151-197 | Whenever the cursor moves forward, every pending entry it passes was examined and was not due, not claimable, or is the one claimed. |
| PendingScan.CursorMovesForward | apps/gateway/internal/redis/reader.go:189-196 | The cursor stays, moves forward, or starts over; it never moves back otherwise. |
| PendingScan.NextStart | apps/gateway/internal/redis/reader.go:189-197 | The next scan starts over after a page of fewer than twenty, where it was after a failure, and else behind the last entry looked at. |
| PendingScan.SweepVisitsAllOnce | apps/gateway/internal/redis/reader.go:151-197 | When nothing is due, the pages of consecutive calls from any cursor are together exactly the pending entries from there on, in order. |
| PendingScan.SweepFromStart | apps/gateway/internal/redis/reader.go:151-197 | From the start, consecutive quiet calls visit each pending entry exactly once before the cursor wraps. |
| DeliverySafety.NextKeepsInv | apps/gateway/internal/orchestrator/event_pump.go:269-376 | Every single step keeps the protocol invariant. |
| EventPump.RuntimeEventReader.TryEntry | apps/gateway/internal/redis/reader.go:173-184 | After other processes moved, the verdict is failed without reply or group, claimed exactly when the entry is pending and idle for long enough, and then the entry belongs to this process with its clock restarted and one more delivery. |
| EventPump.EventPump.ProjectEvent | apps/gateway/internal/orchestrator/event_pump.go:315-328 | Append, load, seed without events and append again are separate steps; together they leave the specified projection and world. |
| EventPump.EventPump.DeadLetter | apps/gateway/internal/orchestrator/event_pump.go:361-376 | The dead-letter call is one burial step, and its counter rises only when it succeeds. |
| EventPump.EventPump.ProcessClaimed | apps/gateway/internal/orchestrator/event_pump.go:279-282 | A claimed delivery is carried to its end, counted as reclaimed, and reported and counted by its outcome. |
| EventPump.EventPump.ReadAndProcess | apps/gateway/internal/orchestrator/event_pump.go:285-303 | A cycle without a claim reads a batch and processes all of it, or fails to read. |
| Projection.ProjectionIsExactlyOnce | apps/gateway/internal/orchestrator/in_memory_bus.go:288-315 | In every reachable state a known run's list is, event by event and field by field, the first occurrences of all it was given, with distinct ids, if and only if the list it was seeded with had distinct ids. |
| Projection.EveryRunShowsItsEvents | apps/gateway/internal/orchestrator/in_memory_bus.go:288-318 | In every reachable state each run shows its seed followed by the unseen later events, alike in every field but the sequence number. |
| Projection.ReachableIsFaithful | apps/gateway/internal/orchestrator/in_memory_bus.go:288-411 | After any legal operations every run shows its seed followed by the unseen later events, in order. |
| Projection.ReplayChangesNothing | apps/gateway/internal/orchestrator/in_memory_bus.go:301-315 | Appending again any events a run was already given changes no field of the projection. |
| Projection.NoMockEvents | apps/gateway/internal/orchestrator/in_memory_bus.go:235-264 | In every reachable state a known run has an event list, so the branch of GetEvents that makes up events is never taken. |
| Projection.BatchAgainstSingles | apps/gateway/internal/orchestrator/in_memory_bus.go:322-328 | A batch gives the same logs, tasks and permission map as its events one by one; the whole projection agrees if and only if the first and the last status-bearing new event name the same status. |
| Projection.BatchStopsAtFirstStatus | apps/gateway/internal/orchestrator/in_memory_bus.go:322-328 | A batch that fails and then completes leaves the run failed, although one by one it ends completed. |
| RuntimeBus.DropKnown | apps/gateway/internal/orchestrator/in_memory_bus.go:301-312 | The duplicate filter keeps exactly the events with unseen ids, first occurrences only. |
| RuntimeBus.ScanStatus | apps/gateway/internal/orchestrator/in_memory_bus.go:320-328 | The status loop finds the status of the first status-bearing event. |
| RuntimeBus.RegisterRequests | apps/gateway/internal/orchestrator/in_memory_bus.go:330-408 | The registration loop puts every request of the new events into the map, the later one winning. |
| RuntimeBus.InMemoryRuntimeBus.AppendRuntimeEvents | apps/gateway/internal/orchestrator/in_memory_bus.go:288-411 | The method's whole new state and answer are those of the specification whose runs are studied. |
| RuntimeBus.InMemoryRuntimeBus.SeedAcceptedRun | apps/gateway/internal/orchestrator/in_memory_bus.go:770-783 | Seeding replaces task, run and event list, whatever was there. |
| RuntimeBus.InMemoryRuntimeBus.PrepareMinimalRun | apps/gateway/internal/orchestrator/in_memory_bus.go:662-732 | Preparing adds the task, the run and its first event. |
| RuntimeBus.InMemoryRuntimeBus.CancelRun | apps/gateway/internal/orchestrator/in_memory_bus.go:738-766 | Cancelling changes the specified fields of a known run and nothing otherwise. |
| RuntimeBus.InMemoryRuntimeBus.UpdateRunStatus | apps/gateway/internal/orchestrator/in_memory_bus.go:426-433 | A status update changes one known run's status and time. |
| RuntimeBus.InMemoryRuntimeBus.ReservePermissionRequest | apps/gateway/internal/orchestrator/in_memory_bus.go:539-550 | Reserving takes the request out of the map and returns it, or changes nothing. |
| RuntimeBus.InMemoryRuntimeBus.RestorePermissionRequest | apps/gateway/internal/orchestrator/in_memory_bus.go:558-568 | Restoring puts the request back unless one is pending under its id. |
| RuntimeBus.InMemoryRuntimeBus.CommitResolvePermission | apps/gateway/internal/orchestrator/in_memory_bus.go:472-508 | Committing removes the request, appends the generated events and completes the run. |
| RuntimeBus.InMemoryRuntimeBus.GetEvents | apps/gateway/internal/orchestrator/in_memory_bus.go:235-264 | Reading returns events alike to the run's own in every field, made-up ones only for a known run without a list, and none for an unknown run. |
| Projection.StepKeepsFaithful | apps/gateway/internal/orchestrator/in_memory_bus.go:288-411 | Every single legal operation keeps the projection faithful to its history. |
| AppendedEvents.UnseenEventIsLogged | apps/gateway/internal/orchestrator/in_memory_bus.go:301-318 | An unseen event of a known run becomes the last of its log with its id, type, task, run and payload; no other log changes. |
| AppendedEvents.BatchIsLogged | apps/gateway/internal/orchestrator/in_memory_bus.go:301-318 | A batch leaves the log followed by its unseen events, alike in every field but the sequence number. |
| AppendedEvents.EventTypeDecidesStatus | apps/gateway/internal/orchestrator/in_memory_bus.go:279-328 | Completed, failed, cancelled, paused and resumed events each set the run's status in one way, and no other type touches the run. |
| AppendedEvents.PermissionEventRegisters | apps/gateway/internal/orchestrator/in_memory_bus.go:330-408 | A permission event with a request id makes that request pending with its fields, scope once and the two default decisions where it names none; no other event touches the requests. |
| AppendedEvents.NothingNewChangesNothing | apps/gateway/internal/orchestrator/in_memory_bus.go:289-315 | A known event, an unknown run and an empty batch change nothing, and only the unknown run is an error. |
| Permissions.TokensAreConserved | apps/gateway/internal/orchestrator/redis_runtime_bus.go:261-304 | Over every interleaving of resolvers, cancels, publish outcomes and deliveries: accepted registrations of a request equal pending + held + published + merged into a live one. |
| Permissions.RegisteredOnceIsInOnePlace | apps/gateway/internal/orchestrator/redis_runtime_bus.go:261-304 | A request registered once is in exactly one of pending, held and published. |
| Permissions.OneEventIsPublishedAtMostOnce | apps/gateway/internal/orchestrator/in_memory_bus.go:301-315 | A request that only ever arrives as one event id is published at most once under any redelivery, and once published is neither pending nor held. |
| Permissions.FailedPublishIsRetryable | apps/gateway/internal/orchestrator/redis_runtime_bus.go:291-297 | In every reachable state a failed publish sends nothing, makes the request pending again, and any other caller can then reserve it. |
| Permissions.RevivedExactlyByUnseenEvent | apps/gateway/internal/orchestrator/in_memory_bus.go:330-407 | A registering event brings a resolved request back if and only if its id is not in the run's log; otherwise it changes nothing. |
| Permissions.PreparedRunHasOneTrace | apps/gateway/internal/orchestrator/redis_runtime_bus.go:173-204 | A run with one trace keeps it through every run of steps that does not prepare it anew: every command ever sent for it carries that id. |
| Permissions.PreparingGivesOneTrace | apps/gateway/internal/orchestrator/redis_runtime_bus.go:173-184 | Preparing a run that no caller and no command mentions gives it one trace for everything sent later. |
| Permissions.UnpreparedRunsRace | apps/gateway/internal/orchestrator/redis_runtime_bus.go:267-277 | Without a stored trace id, two callers at work for one run that look before either stores send commands with different ids. |
| PermissionRaces.OneTraceExactlyWhenStored | apps/gateway/internal/orchestrator/redis_runtime_bus.go:267-277 | For a known run that no caller and no command mentions: its trace id is stored if and only if every run of steps that does not prepare it sends all its commands under one trace. |
| PermissionRaces.CancelsRace | apps/gateway/internal/orchestrator/redis_runtime_bus.go:376-410 | Two cancellations of a run without a trace id that both look before either stores send different ones. |
| PermissionRaces.ResolverRaceIsReachable | apps/gateway/internal/orchestrator/redis_runtime_bus.go:261-304 | From the empty machine, a seeded run with two requests sends two decisions under different trace ids. |
| PermissionRaces.UnseenEventPublishesOnceMore | apps/gateway/internal/orchestrator/in_memory_bus.go:301-315 | In every state of a known run, an event with an unseen id lets its request be published one more time. |
| PermissionRaces.TwoEventsPublishTwice | apps/gateway/internal/orchestrator/in_memory_bus.go:330-407 | From the empty machine, a request that arrives under two event ids is published twice. |
| PermissionRaces.ReseedPublishesTwice | apps/gateway/internal/orchestrator/in_memory_bus.go:770-783 | From the empty machine, a request whose one event is redelivered after its run was seeded again is published twice. |
| Permissions.RedisRuntimeBus.ResolvePermission | apps/gateway/internal/orchestrator/redis_runtime_bus.go:261-304 | The method's effect and answer, for every state, outcome and stored trace. |
| Permissions.CallIsItsSteps | apps/gateway/internal/orchestrator/redis_runtime_bus.go:261-304 | A call that nobody interrupts is its four atomic steps in order. |
| Permissions.NextConserves | apps/gateway/internal/orchestrator/redis_runtime_bus.go:261-304 | Every single step conserves every request. |
| Permissions.NextKeepsUniform | apps/gateway/internal/orchestrator/redis_runtime_bus.go:267-277 | Every step except preparing the run anew keeps its trace id in the table, in every hold and in every command. |
| Similarity.CauchySchwarz | apps/agent-worker/eval/framework/metrics.py:242-253 | The square of a dot product is at most the product of the squared lengths, in every dimension. |
| Similarity.CosineIsBounded | apps/agent-worker/eval/framework/metrics.py:242-253 | Every cosine similarity lies between -1 and 1. |
| Similarity.CosineIs | apps/agent-worker/eval/framework/metrics.py:242-253 | The similarity of two non-zero vectors has the sign of their dot product, and its square times both squared lengths is that product's square; of a zero vector it is 0. |
| Similarity.CosineIsOdd | apps/agent-worker/eval/framework/metrics.py:242-253 | Opposite vectors have opposite similarities. |
| Similarity.DotFromTheEnd | apps/agent-worker/eval/framework/metrics.py:242-253 | The dot product counts its last coordinates like its first. |
| Similarity.CosineIgnoresScale | apps/agent-worker/eval/runners/pipeline_eval.py:354-362 | Scaling the query by a positive factor changes no similarity and no error. |
| Similarity.CosineOneIsParallel | apps/agent-worker/eval/framework/metrics.py:242-253 | The similarity is 1 exactly for a non-zero vector and a positive multiple of it. |
| Embedding.RankChunksIsTheBest | apps/agent-worker/eval/runners/pipeline_eval.py:243-253 | The result is the front of the only ranking of all chunks by score and index: nothing left out ranks before anything kept. |
| Embedding.RankChunksReturns | apps/agent-worker/eval/runners/pipeline_eval.py:243-253 | For every limit, negative ones too: as many chunks as it leaves, each with its own similarity, higher ones first and equal ones by index, and none left out that ranks before one shown; an error exactly when some similarity fails. |
| Embedding.RankingIgnoresScale | apps/agent-worker/eval/runners/pipeline_eval.py:243-253 | Scaling the query by a positive factor changes neither the ranking nor a score. |
| Embedding.RankingIsUnique | apps/agent-worker/eval/runners/pipeline_eval.py:253 | The order is strict, so a ranking is determined by what it ranks. |
| Embedding.FullAccuracyMeansMargin | apps/agent-worker/eval/framework/metrics.py:65-75 | Pairwise accuracy is 1 exactly when every positive beats every hard negative; with a hard negative it forces a positive mean margin. |
| Embedding.StageIs | apps/agent-worker/eval/framework/metrics.py:64-75 | The means times their numbers are the sums, the margin is their difference, and the accuracy times the number of pairs is the number of pairs in which the positive is more similar. |
| Embedding.EvaluateEmbeddingIs | apps/agent-worker/eval/framework/metrics.py:57-75 | The stage is evaluated exactly with a positive vector and a similarity for every vector, on exactly these similarities. |
| Embedding.StageIsBounded | apps/agent-worker/eval/framework/metrics.py:57-101 | The stage's means lie between -1 and 1 and its margin between -2 and 2. |
| Embedding.SortRanks | apps/agent-worker/eval/runners/pipeline_eval.py:253 | Sorting by falling score and rising index ranks and keeps all chunks. |
| Ranking.NdcgIsNormalised | apps/agent-worker/eval/framework/metrics.py:231-239 | For distinct chunk ids and any decreasing discount NDCG lies in [0, 1], and is 1 exactly when the first min(positives, cutoff) places are all positive. |
| RankingValues.NdcgIs | apps/agent-worker/eval/framework/metrics.py:231-239 | For every ranking and discount NDCG times the discounts of the first min(positives, cutoff) places is the discounts of the places hit inside the cutoff, and 0 without such places. |
| RankingValues.OnlyHitEarnsItsPlace | apps/agent-worker/eval/framework/metrics.py:231-239 | The only hit inside the cutoff, at place i, earns exactly g(i) of the ideal. |
| RankingValues.NdcgAddsUp | apps/agent-worker/eval/framework/metrics.py:231-239 | What disjoint sets of positives earn adds up. |
| RankingValues.PromotionGainIs | apps/agent-worker/eval/framework/metrics.py:231-239 | Promoting a hit by one place changes NDCG by exactly the difference of the two discounts over the ideal. |
| Ranking.NdcgBoundedExactlyWhenHitsFit | apps/agent-worker/eval/framework/metrics.py:231-239 | About the family of discounts: NDCG is at most 1 under all of them if and only if the hits inside the cutoff fit the ideal. |
| Ranking.NdcgAboveOneExactlyWhen | apps/agent-worker/eval/framework/metrics.py:231-239 | NDCG exceeds 1 under every discount if and only if the ideal front is all positive and the cutoff holds further hits. |
| Ranking.RepeatedHitExceedsOne | apps/agent-worker/eval/framework/metrics.py:231-239 | A positive chunk ranked again right behind an all-positive front gives NDCG above 1, whatever the discount. |
| Ranking.PromotionPays | apps/agent-worker/eval/framework/metrics.py:223-239 | Swapping an adjacent (non-positive, positive) pair inside the cutoff strictly raises NDCG and never lowers the reciprocal rank. |
| Ranking.FirstHitIs | apps/agent-worker/eval/framework/metrics.py:223-228 | The first hit is the least index holding a positive chunk, and there is none exactly when no chunk is positive. |
| Ranking.ReciprocalRankBounds | apps/agent-worker/eval/framework/metrics.py:223-228 | The reciprocal rank lies in [0, 1], is positive exactly when some positive is ranked, and 1 exactly when it is first. |
| RankingValues.ReciprocalRankIs | apps/agent-worker/eval/framework/metrics.py:223-228 | The reciprocal rank times the first place that holds a positive is one, and it is 0 without one. |
| Ranking.GainsAtMostFront | apps/agent-worker/eval/framework/metrics.py:231-239 | The gains of any ranking are at most those of as many hits at the front. |
| Ranking.NdcgWithFittingHits | apps/agent-worker/eval/framework/metrics.py:231-239 | When the hits fit the ideal, NDCG lies in [0, 1] and is 1 exactly when the front is all positive. |
| Ranking.DistinctHitsFit | apps/agent-worker/eval/framework/metrics.py:231-239 | With distinct ids the hits never exceed the positives. |
| FailureMining.NoUnattributedLoss | apps/agent-worker/eval/framework/failure_mining.py:47-83 | Under the default policy with cutoff 5 evaluated, no stage is blamed exactly when every positive chunk came through candidates, reranker and context. |
| FailureMining.AttributionIsExact | apps/agent-worker/eval/framework/failure_mining.py:47-83 | For every policy whose cutoff was evaluated, each of the three blames is reported exactly when its recall is below the minimum and the stage before met its own. |
| FailureMining.DropsHaveWitnesses | apps/agent-worker/eval/framework/failure_mining.py:57-83 | Every drop report has a positive chunk kept before and lost by the stage named, or else both recalls lie between the two minima of a policy that asks more of the later stage. |
| FailureMining.AttributionNeedsTheCutoff | apps/agent-worker/eval/framework/failure_mining.py:35-40 | Without supplied recalls an incomplete context is attributed if and only if the cutoff 5 was among those evaluated. |
| FailureMining.MineFailures | apps/agent-worker/eval/framework/failure_mining.py:27-114 | The reports are exactly the detected failures, once each, in stage order, with stage, severity and metric. |
| MetricValues.DefaultPolicyReports | apps/agent-worker/eval/framework/failure_mining.py:15-106 | Under the default policy each of the six failures by the metrics alone, at cutoff 5 and with the limits 1, 0.05 and 0.9. |
| MetricValues.ReportsName | apps/agent-worker/eval/framework/failure_mining.py:44-114 | A report names stage, severity and metric of its failure, once, whatever the policy. |
| FailureMining.EvaluateRetrievalStages | apps/agent-worker/eval/framework/metrics.py:104-165 | Evaluation succeeds exactly with a positive chunk and a positive cutoff, and then returns all metrics in order. |
| FailureMining.RankingMetrics | apps/agent-worker/eval/framework/metrics.py:168-220 | The metric loop lists four values per cutoff and two for the whole ranking. |
| MetricValues.MetricsAtAre | apps/agent-worker/eval/framework/metrics.py:178-205 | The four values at a cutoff: the shares of positives found, of places with a positive and of places with a hard negative, and whether any positive was found. |
| MetricValues.StageMetricsAre | apps/agent-worker/eval/framework/metrics.py:136-164 | The gain in reciprocal rank, the share of positive candidates lost by reranking, the share of positives in the context, and whether the context was cut. |
| MetricValues.EvaluationLists | apps/agent-worker/eval/framework/metrics.py:104-220 | For candidates and reranked chunks an evaluation lists the four values at every positive cutoff, the reciprocal rank of the whole ranking and NDCG at the largest cutoff. |
| FailureMining.EvaluateLabeledTrace | apps/agent-worker/eval/framework/orchestrator.py:19-33 | The outcome joins supplied and retrieval metrics, later ones winning, with exactly the failures they show. |
| FailureMining.NormalizedIs | apps/agent-worker/eval/framework/metrics.py:111 | The cutoffs used are the positive ones, each once, increasing. |
| FailureMining.RatesAreConsistent | apps/agent-worker/eval/framework/metrics.py:178-205 | All four values are rates; the hit rate is 1 exactly when recall is positive; precision and intrusion share the places shown, unless none is shown and both are 1. |
| FailureMining.RecallGrowsWithTheCutoff | apps/agent-worker/eval/framework/metrics.py:178-189 | A larger cutoff never lowers recall. |
| FailureMining.EvidenceDropIsExact | apps/agent-worker/eval/framework/metrics.py:148-152 | The drop rate is zero exactly when there was a positive candidate and the reranker lost none. |
| Alignment.AlignmentIsGreedy | apps/agent-worker/eval/runners/pipeline_eval.py:110-173 | Region after region the detail is the greedy choice among unused nodes: only nodes of the page scoring 0.45 or more, empty exactly when there is none, the best score recorded, all covering nodes or else one best node. |
| AlignmentValues.GreedyInNumbers | apps/agent-worker/eval/runners/pipeline_eval.py:110-173 | Region after region: empty exactly when every open node of its page scores below 0.45; exactly the good nodes of its family that overlap it by 0.7 or more if there are any, and else at most one. |
| Alignment.OutputsAreDisjoint | apps/agent-worker/eval/runners/pipeline_eval.py:127-156 | No output node is matched with two regions. |
| Alignment.MatchesAreTheOutputs | apps/agent-worker/eval/runners/pipeline_eval.py:155-157 | With distinct gold ids the returned map holds exactly the non-empty output lists. |
| Alignment.AlignGoldNodes | apps/agent-worker/eval/runners/pipeline_eval.py:110-173 | The nested loops compute the specified alignment. |
| Alignment.OverlapIsAFraction | apps/agent-worker/eval/runners/pipeline_eval.py:339-351 | The overlap of any two boxes, inverted or not, lies in [0, 1], is positive exactly for a proper intersection, and 1 exactly when a box of at least one unit lies inside the other. |
| AlignmentValues.OverlapIs | apps/agent-worker/eval/runners/pipeline_eval.py:339-351 | The overlap times the smaller area, one at least, is the shared width times the shared height. |
| Alignment.PartsAreFractions | apps/agent-worker/eval/runners/pipeline_eval.py:316-336 | Score, text similarity and overlap of every pair lie in [0, 1]. |
| AlignmentValues.ScoreIs | apps/agent-worker/eval/runners/pipeline_eval.py:316-336 | A pair's score is four tenths for the same type or two for the same family, three of the overlap and three of the text similarity, to six decimals half-even. |
| Alignment.BestIsTheEarliest | apps/agent-worker/eval/runners/pipeline_eval.py:132 | Among the best candidates the first in the document is taken first. |
| Alignment.DetailDescribesTheChoice | apps/agent-worker/eval/runners/pipeline_eval.py:133-172 | An empty region is reported with zeros, any other by its best score and the largest similarity and overlap among the nodes taken. |
| Alignment.EligibleAreTaken | apps/agent-worker/eval/runners/pipeline_eval.py:122-154 | A region takes only eligible nodes, goes empty only when there is none, and records the best score. |
| Alignment.CoveringAreTaken | apps/agent-worker/eval/runners/pipeline_eval.py:145-153 | It takes exactly the covering nodes if there is one, and otherwise one node of the best score. |
| Alignment.GroupByPage | apps/agent-worker/eval/runners/pipeline_eval.py:115-117 | Grouping lists each page's nodes in document order. |
| Alignment.FindCandidates | apps/agent-worker/eval/runners/pipeline_eval.py:123-131 | The candidate loop lists the unused nodes scoring 0.45 or more, in order. |
| Resp.RequestReads | scripts/p2-runtime-fault-drill.py:422-466 | For all parts and whatever follows, reading the bytes of a request returns the parts and leaves exactly what follows. |
| RespReplies.ReplyReads | scripts/p2-runtime-fault-drill.py:422-452 | Whatever value a server sends, however nested, is read back with exactly what follows it. |
| RespReplies.NilReads | scripts/p2-runtime-fault-drill.py:438-450 | Both forms of nil read as nil. |
| RespReplies.SimpleStringReads | scripts/p2-runtime-fault-drill.py:430-431 | A simple string reads as its text. |
| RespReplies.ErrorReplyFails | scripts/p2-runtime-fault-drill.py:432-436 | An error reply fails with its own message. |
| RespReplies.OtherRepliesFail | scripts/p2-runtime-fault-drill.py:437-452 | An unknown first byte, an unreadable number and a negative size other than minus one are each refused in their own way. |
| RespReplies.UnfinishedLineFails | scripts/p2-runtime-fault-drill.py:423-428 | No bytes at all, and a line without its closing bytes, are errors of their own. |
| RespReplies.BulkIsChecked | scripts/p2-runtime-fault-drill.py:440-445 | A bulk string needs all its bytes and its closing ones. |
| RespReplies.NegativeCountReadsEmpty | scripts/p2-runtime-fault-drill.py:446-451 | A negative count other than minus one reads as an empty array. |
| Resp.NoProperPrefixReads | scripts/p2-runtime-fault-drill.py:422-452 | No response that reads completely is misread from a proper prefix of its bytes. |
| Resp.NoProperPrefixOfARequestReads | scripts/p2-runtime-fault-drill.py:422-466 | Every proper prefix of a request is rejected. |
| Resp.RequestsAreSelfDelimiting | scripts/p2-runtime-fault-drill.py:455-466 | Two requests that agree with anything after them are the same request. |
| Resp.ResponseExtends | scripts/p2-runtime-fault-drill.py:422-452 | A response reads the same whatever follows it. |
| Resp.EncodeCommand | scripts/p2-runtime-fault-drill.py:455-466 | The loop sends the specified bytes, or nothing if a part cannot be encoded. |
| Resp.ByteReader.ReadResponse | scripts/p2-runtime-fault-drill.py:422-452 | The recursive reader returns the specified value or error and stops right behind the response. |
| Decimal.ParsePrint | scripts/p2-runtime-fault-drill.py:433-447 | int() reads back every printed length. |
| Decimal.ParseSpacedAndSigned | scripts/p2-runtime-fault-drill.py:437-447 | int() skips white space around a number and takes either sign. |
| Decimal.UnderscoreSeparates | scripts/p2-runtime-fault-drill.py:437-447 | int() skips a single underscore between digits. |
| Decimal.StrayUnderscoreFails | scripts/p2-runtime-fault-drill.py:437-447 | int() refuses an underscore in front, at the end or beside another. |
| Resp.EncodeAll | scripts/p2-runtime-fault-drill.py:456 | All parts are encoded in order, or none when one has no encoding. |
| Resp.ByteReader.ReadItems | scripts/p2-runtime-fault-drill.py:449-451 | The list loop reads as many responses in a row and returns the first error. |
| Resp.ByteReader.ReadScalar | scripts/p2-runtime-fault-drill.py:430-452 | A response that is not an array is read as specified. |
| Resp.ByteReader.ReadBulkData | scripts/p2-runtime-fault-drill.py:440-445 | A bulk string is read as specified, to its closing bytes. |
| Resp.ByteReader.ReadLine | scripts/p2-runtime-fault-drill.py:426 | A line runs through its newline, or to the end. |
| PdfFixture.DocumentReads | scripts/p2-runtime-fault-drill.py:984-1046 | For every marker and 1 to 256 pages, following startxref, the table, the page tree, every reference and every /Length returns the text of all pages in order. |
| PdfText.PageShowsItsSentences | scripts/p2-runtime-fault-drill.py:1004-1021 | Every page shows its twelve numbered sentences, in order and nothing else, between the operators that begin and end its text. |
| PdfText.MarkerIsSafe | scripts/p2-runtime-fault-drill.py:995-998 | The marker in the file has at most eighty characters, each the given one if it is a letter, a digit, - or _, and - otherwise. |
| PdfFixture.BuildPdfFixture | scripts/p2-runtime-fault-drill.py:984-1046 | The writer returns the specified file, or exactly the page-count or the encoding error. |
| PdfFixture.FixtureIsSmall | scripts/p2-runtime-fault-drill.py:1028-1040 | Every offset of the file fits ten digits. |
| PdfFixture.ObjectsAre | scripts/p2-runtime-fault-drill.py:988-1026 | Every object has the number that the references to it print. |
| PdfFile.ObjectReads | scripts/p2-runtime-fault-drill.py:1028-1046 | For any objects of bounded size, looking up number i through startxref and the table finds body i behind its own object header. |
| PdfFile.OffsetIs | scripts/p2-runtime-fault-drill.py:1037-1039 | Entry i of the table holds the byte offset at which object i was written. |
| PdfFile.EntriesAre | scripts/p2-runtime-fault-drill.py:1038-1039 | Every entry is exactly 20 bytes. |
| PdfFile.StartXrefIs | scripts/p2-runtime-fault-drill.py:1034-1045 | The number at the end of the file is the offset of the table. |
| PdfFile.WriteFile | scripts/p2-runtime-fault-drill.py:1028-1046 | The two writing loops produce the specified file. |
| PdfFile.WriteTable | scripts/p2-runtime-fault-drill.py:1035-1039 | The table loop writes the head, the free entry and one entry per offset. |
| PdfFixture.BuildStream | scripts/p2-runtime-fault-drill.py:1009-1021 | The line loop builds the text of one page. |
| PdfFile.PadIsTen | scripts/p2-runtime-fault-drill.py:1039 | An offset below ten thousand million prints in exactly ten digits and reads back. |
| RotatingLog.LogIsASuffix | apps/gateway/internal/observability/logger.go:216-250 | After any writes the dropped files, each whole, followed by backups and live file are what was there plus every write, in order. |
| RotatingLog.DropsOnlyWhenFull | apps/gateway/internal/observability/logger.go:233-250 | From c backups the first maxBackups - c rotations drop nothing and each later one drops exactly one file. |
| RotatingLog.OnlyOversizedWritesExceed | apps/gateway/internal/observability/logger.go:216-231 | With at least one backup a file exceeds the limit only by holding one oversized write. |
| RotatingLog.NoBackupsNoLimit | apps/gateway/internal/observability/logger.go:233-250 | With no backups the live file keeps every write and no limit holds. |
| RotatingLog.FittingWritesStay | apps/gateway/internal/observability/logger.go:216-231 | Writes that fit the limit together never rotate: all are in the live file, in order, and nothing else changes. |
| RotatingLog.WriteLands | apps/gateway/internal/observability/logger.go:216-250 | A write that fits, or any without backups, is appended and nothing else changes; any other starts a new live file in front of the old one. |
| RotatingLog.LiveFileGrowsExactlyWhen | apps/gateway/internal/observability/logger.go:216-231 | The live file grows by a write if and only if the write fits, there are no backups, or the file was empty. |
| RotatingLog.RotatedIs | apps/gateway/internal/observability/logger.go:233-250 | Every slot after a rotation, also with gaps among the backups. |
| RotatingLog.RotationKeepsOrder | apps/gateway/internal/observability/logger.go:233-250 | One rotation drops at most the oldest file and keeps the rest in order. |
| RotatingLog.RotatingFile.Write | apps/gateway/internal/observability/logger.go:216-231 | The method leaves the specified directory and the right current size. |
| RotatingLog.RotatingFile.Rotate | apps/gateway/internal/observability/logger.go:233-250 | The rename loop and the reopening leave the specified directory. |
| RotatingLog.RotatingFile.Reopen | apps/gateway/internal/observability/logger.go:198-214 | Reopening creates a missing live file and takes its size. |
| RotatingLog.RotatingFile.Rename | apps/gateway/internal/observability/logger.go:246 | A rename moves a file over its target, or does nothing when it is missing. |
| LogLine.LineRoundTrip | apps/gateway/internal/observability/logger.go:324-341 | Splitting any line at " | " at most six times returns its seven columns if and only if neither service nor caller holds or begins a separator. |
| LogColumns.LineHidesSecrets | apps/gateway/internal/observability/logger.go:155-163 | Two records that differ only in the texts of secrets, however grouped, write the same line. |
| LogColumns.SecretsDoNotShow | apps/gateway/internal/observability/logger.go:351-387 | No text of an attribute whose last key part is one of the fourteen names, or ends in one behind an underscore, has any influence on what is collected. |
| LogColumns.SecretIsMasked | apps/gateway/internal/observability/logger.go:382-387 | Where a text of a secret would stand there are three stars. |
| LogColumns.IdsAreShown | apps/gateway/internal/observability/logger.go:78-91 | The five ids of a record stand in the context column, each behind its name, whatever the handler carried. |
| LogColumns.OtherAttributesFollowTheMessage | apps/gateway/internal/observability/logger.go:326-330 | Any other attribute follows the message as key and value. |
| LogColumns.MessageThenExtras | apps/gateway/internal/observability/logger.go:305-341 | The message is followed by all other attributes, each behind a blank, in the order collected; service, thread and caller have their own columns. |
| LogColumns.GroupsPrefixKeys | apps/gateway/internal/observability/logger.go:351-361 | An attribute in a group is collected as if its key were the group's name, a point and its own key. |
| LogColumns.TimeReads | apps/gateway/internal/observability/logger.go:293-295 | Every part of the time reads back from the time column, down to the millisecond. |
| LogColumns.LevelsAreNamed | apps/gateway/internal/observability/logger.go:168-173 | Each of the four levels has its five-column name, and any other is written as information. |
| LogLine.NormalizeIsTidy | apps/gateway/internal/observability/logger.go:143-153 | Normalised text has no bar and no white space but blanks. |
| LogColumns.NormalizeIs | apps/gateway/internal/observability/logger.go:143-153 | A text whose words fit is those words one blank apart; a longer one is cut to the whole characters of its first bytes and marked with an ellipsis. |
| LogColumns.MessageLimit | apps/gateway/internal/observability/logger.go:126-151 | A message is redacted first, keeps 4096 bytes of what is left, and is shortened to whole characters behind them. |
| LogColumns.IdLimit | apps/gateway/internal/observability/logger.go:78-91 | An id keeps its first 128 bytes. |
| LogColumns.SpaceSeparatesFields | apps/gateway/internal/observability/logger.go:146 | White space separates words and is part of none. |
| LogLine.CollectIsTidy | apps/gateway/internal/observability/logger.go:351-380 | Whatever the attributes, however grouped, nothing collected holds a bar. |
| LogLine.Collector.CollectAttrs | apps/gateway/internal/observability/logger.go:351-380 | The recursive collection leaves the specified context and extras. |
| LogLine.Handle | apps/gateway/internal/observability/logger.go:289-349 | The handler writes the seven specified columns. |
| LogLine.SplitJoined | scripts/runtime-support.py:265 | Splitting joined columns returns them exactly when all but the last are clean. |
| LogLine.CleanIs | scripts/runtime-support.py:265 | A column is clean exactly when no separator starts inside it. |
| LogSummary.SummaryCountsRecords | scripts/runtime-support.py:260-270 | The summary of a file counts per level exactly the records whose columns before the message do not break their line. |
| LogSummary.RecordCounts | scripts/runtime-support.py:264-270 | One record adds at most one count, of its own level; no message can add a count or hide later lines. |
| LogSummary.SeparatorInTraceLosesRecord | apps/gateway/internal/observability/logger.go:143-153 | A trace id holding U+001C to U+001E passes normalisation and its record is counted at no level. |
| LogColumns.SurvivingBreaksAre | scripts/runtime-support.py:264 | The characters that break a line for the splitter but are no white space to the writer are exactly U+001C to U+001E. |
| LogSummary.NormalizeKeepsWords | apps/gateway/internal/observability/logger.go:143-153 | Normalising a word that fits changes nothing. |
| LogSummary.SummarizeLog | scripts/runtime-support.py:260-270 | The loop counts every level over all lines. |
| LogLine.ContextAndMessageAreTidy | apps/gateway/internal/observability/logger.go:324-341 | Neither attributes nor message can put a bar into the context or message column. |
| DeadLetterPaging.ListDeadLetters | apps/gateway/internal/redis/diagnostics.go:146-190 | The batch loop returns the specified page for every stream and query. |
| DeadLetterPaging.PageIsAStretch | apps/gateway/internal/redis/diagnostics.go:146-190 | A page is the matches of one stretch of at most 500 messages, at most the limit, stopping early only at it; its cursor is missing exactly when the last message looked at lies in a short batch. |
| PageContents.PageShowsTheNewest | apps/gateway/internal/redis/diagnostics.go:146-190 | A page shows only records that were asked for, newest first, between one and fifty by the limit, and any other that was asked for is older than all it shows. |
| PageContents.ShortPageLookedFar | apps/gateway/internal/redis/diagnostics.go:157-183 | A page that shows fewer than its limit leaves out only records behind five hundred messages. |
| DeadLetterPaging.CursorsRepeatNothing | apps/gateway/internal/redis/diagnostics.go:146-190 | All pages together are the matches of one stretch of the stream: nothing repeated, reordered or skipped. |
| DeadLetterPaging.CursorsCoverExactly | apps/gateway/internal/redis/diagnostics.go:184-187 | From stream and query alone: the chain covers the whole stream if and only if neither here nor after any page's end the limit is completed inside the last, short batch. |
| DeadLetterPaging.EndsEarlyExactlyWhen | apps/gateway/internal/redis/diagnostics.go:180-187 | From stream and query alone: a page ends early exactly when some matching message among the first 500, in the last, short batch and with messages behind it, completes the limit. |
| DeadLetterPaging.PageEndsExactlyAt | apps/gateway/internal/redis/diagnostics.go:164-187 | A page that does not reach the end of the stream ends after the fewest messages that fill the limit or number 500. |
| DeadLetterPaging.ShortStreamLosesMatches | apps/gateway/internal/redis/diagnostics.go:184-187 | With fewer than 100 messages and more matches than the limit, the first page says it is the last. |
| DeadLetterPaging.NewerMessagesChangeNoPage | apps/gateway/internal/redis/diagnostics.go:151-154 | New dead letters between two pages do not change the next page. |
| DeadLetterPaging.ScanBatch | apps/gateway/internal/redis/diagnostics.go:164-183 | The loop over a batch stops at the limit, and its cursor is the last message looked at. |
| BatchDelete.BatchConservesDocuments | apps/web/src/stores/ragDocumentStore.ts:293-335 | Over any decisions, closings, clearings and server answers: reports, open and waiting documents, with the reports cleared and followed by what a stop discarded, are the planned documents in order. |
| BatchDelete.StartKeepsLedger | apps/web/src/stores/ragDocumentStore.ts:410-433 | A started batch accounts for every selected document, whatever request was open: the ineligible reported as skipped, the refused as failed, the others open or waiting. |
| BatchDelete.FinishedBatchReportsEveryDocument | apps/web/src/stores/ragDocumentStore.ts:293-335 | A finished batch that was never stopped has made exactly one report per selected document, whatever request was open at its start. |
| BatchDelete.EveryDecisionAdvances | apps/web/src/stores/ragDocumentStore.ts:435-481 | Every decision that goes through lowers the work left, so a batch ends. |
| BatchDelete.ReportsTellTheTruth | apps/web/src/stores/ragDocumentStore.ts:310-317 | When the open request is the batch's own, the documents reported as deleted are exactly those the server deleted, in order. |
| BatchDelete.StartTellsTheTruthExactlyWhen | apps/web/src/stores/ragDocumentStore.ts:410-433 | A started batch reports every deletion under all answers and actions if and only if no request was open before or some eligible selected document's request is accepted. |
| BatchDelete.StaleApprovalIsReportedNowhere | apps/web/src/stores/ragDocumentStore.ts:293-335 | Approving a request that outlived its batch deletes a document that no report mentions. |
| BatchDelete.StaleApprovalExample | apps/web/src/stores/ragDocumentStore.ts:435-481 | The input: one document is selected while a request for another is open and its own request is refused; approving then deletes the other, and the only report is a failure. |
| BatchDelete.SingleDeleteLosesTheOpenDocument | apps/web/src/stores/ragDocumentStore.ts:267-291 | A single delete during a batch loses the open document: no later decision reports it, moves the queue or ends the batch. |
| BatchDelete.RagDocumentStore.OpenNextBatchDeleteRequest | apps/web/src/stores/ragDocumentStore.ts:435-481 | The drain loop reaches the specified state. |
| BatchDelete.RagDocumentStore.StartBatchDelete | apps/web/src/stores/ragDocumentStore.ts:410-433 | Starting checks workspace and selection size and leaves the specified state. |
| BatchDelete.RagDocumentStore.ResolveDelete | apps/web/src/stores/ragDocumentStore.ts:293-335 | A decision leaves the specified state, unchanged but for the call if it fails, and answers whether it went through. |
| BatchDelete.RagDocumentStore.RequestDeleteOf | apps/web/src/stores/ragDocumentStore.ts:267-291 | A single delete request leaves the specified state and answers whether the server accepted it. |
| BatchDelete.DrainKeepsLedger | apps/web/src/stores/ragDocumentStore.ts:435-481 | Opening the next request reports every document whose request is refused and moves none out of order. |
| BatchReports.NextRequestIsTheFirstAccepted | apps/web/src/stores/ragDocumentStore.ts:435-481 | The next request is for the first document the server accepts, those before it are reported as failed in order, the others stay queued. |
| BatchReports.NoneAcceptedEnds | apps/web/src/stores/ragDocumentStore.ts:435-481 | When the server accepts none, all are reported as failed and the batch is over. |
| BatchReports.DecisionIsReported | apps/web/src/stores/ragDocumentStore.ts:293-335 | A decision is reported at once, as succeeded when allowed and as skipped when denied; only an allowed document is deleted, and a stop ends the batch. |
| BatchReports.IneligibleAreSkippedFirst | apps/web/src/stores/ragDocumentStore.ts:410-433 | A started batch first reports the documents that cannot be deleted, as skipped and in order, and then those refused. |
| BatchReports.SingleDecision | apps/web/src/stores/ragDocumentStore.ts:293-335 | Outside a batch a decision settles the open request alone, deletes its document if allowed and reports nothing. |
| BatchDelete.ResolveKeepsLedger | apps/web/src/stores/ragDocumentStore.ts:293-335 | One decision keeps every document accounted for, except those a stop discards. |
| BatchDelete.ActKeepsLedger | apps/web/src/stores/ragDocumentStore.ts:483-493 | Closing the request never touches the account of a batch, clearing removes exactly the reports of a finished one, and a decision only what its stop discards. |
| BatchDelete.SingleModeStrandsTheQueue | apps/web/src/stores/ragDocumentStore.ts:318-323 | Once a single delete is asked for, no decision, closing or clearing touches the batch. |

## Left out

- DeliveryResults.AcknowledgedIsProjected: requires that no handler seeds a run with a list lacking a logged event,
  because the claim is false otherwise, as `LateSeedDropsAcknowledgedEvent` shows.
- Permissions.OneEventIsPublishedAtMostOnce: requires one event id per request and no re-seed that drops it; both
  conditions are needed, by `PermissionRaces.TwoEventsPublishTwice` and `PermissionRaces.ReseedPublishesTwice`.
- DeliveryResults.AcknowledgedExactlyOnce: requires the same of seeds, and that their lists have distinct ids.
- BatchDelete.ReportsTellTheTruth: requires that no request is left over from before the batch, because the claim is
  false otherwise, as `StaleApprovalExample` shows.
- EventPump.EventPump.RunOnce: other processes move before each claim of a scan, and nowhere else within a cycle; any
  interleaving, of the process's own handlers too, is covered by the steps of `Delivery`.
- Embedding.FullAccuracyMeansMargin: one direction only for the margin, which can be positive without full accuracy.
- Resp.RequestReads: UTF-8 is a parameter whose decoding undoes its encoding, and int() has no limit on digits.
- Redis itself, the network and goroutines: commands and scripts are atomic steps with a lost request, a lost reply or
  success; one stream and one consumer group; trimming and deletion of stream entries.
- The dead-letter stream's approximate trimming and the lifetime of the dedupe key: the log of records is kept whole and
  keys expire at any time.
- A restart of the gateway: a process loses its projection by design, so claims about logs last as long as the process.
- JSON, SHA-256, UUIDs, wall clocks: abstract values, given ids and a clock that only moves forward.
- The sequence number of a copied event, which the copy does not keep.
- Mock event generators of the in-memory bus, its development scenarios, and its read-only accessors.
- Deep copies and locks: states are values, so aliasing of returned slices and maps is not modelled.
- Floating point: reals, with the discount of NDCG any positive decreasing function and the square root given by its
  square; hence overflow and the finiteness check of the cosine.
- Chunking metrics, routing, generation and citation evaluation: single ratios.
- `SequenceMatcher` and text normalisation in the alignment: any ratio between 0 and 1 of any normal form.
- Redaction patterns, lower-casing and terminal colours in the logger: any functions of the text.
- Text that is not valid UTF-8 in log lines; a character cut by the length limit reads as the replacement character.
- A failing range read of the dead-letter stream, which returns an error and no page.
- Failed file operations in rotation, short writes, and files renamed by others.
- The failure locations, file tail and file statistics of the log summary.
- The sample counts beside the embedding metrics, and the two-hundred-character cut of a RESP error message.
- Message texts, toasts, list reloads and the non-delete batch actions of the web store; two actions in flight at once.
  The selection limit and the eligibility test are parameters; their file is not part of this model.
- The HTTP client, routes, release gates, preflight checks, heartbeat view and data lifecycle: input and output with
  single-branch checks.
