# Verified model of the agent gateway's queue and of the stream, buffer and accounting code around it

The project models the parts of the repository whose correctness cannot be read off one function, and proves what
they promise for every input, every chunking and every interleaving.

**The durable capture and skill-extraction queue** (`GatewayDb`, `StoreEffects`, `HookEffects`, `CoreClient`,
`CaptureQueue`, `CaptureInvariant`, `CaptureTheorems`, `CaptureOutcomes`, `ExtractionOutcomes`, `CaptureProgress`,
`ExtractionProgress`, `CaptureExamples`, `EventIds`). Hooks become rows named by a hash of their content; a polled worker takes a snapshot of due rows, sends each to two sinks, marks every sink done, dead or to be
retried, and a pruner deletes old rows. `GatewayDb` holds the tables as maps and each SQL statement as a function.
`CaptureQueue` is the transition system: between any two statements that an `await` separates, hooks, pruning, other
workers and a crash may come, and a request that was sent may reach Core at any later time. The UPDATE statements
carry no status guard, so every safety property is an invariant of the whole system (`CaptureInvariant.Inv`).
`GatewayStoreClass` and `CaptureWorkerClass` are the two objects with their methods, each proved to be exactly a
statement or a step of that system, and `StoreEffects` says what the statements mean for each other; `WorkerPool` has
the lanes of `concurrent` and `mapLimit` with their shared counter and shows that every schedule of them is a run of the queue.

**Incremental stream processing** (`SseText`, `UsageTap`, `OpenAIStream`, `ThinkingFix`, `AnthropicUsage`,
`AnthropicStream`, `Json`, `JsonCodec`). Taps cut an
arbitrarily chunked stream at blank lines, keep a remainder, and fold or rewrite the events. Each is proved equal to a
function of the whole text, and what that function reads is stated on the JSON events themselves. Parsing and printing JSON are functions; the thinking fix asks that what it prints parses back
and has no line break, and `JsonCodec` shows that this can be met for every value.

**Supporting protocols and algorithms**: workspace binding (`WorkspaceBinding`), the authentication cache (`AuthCache`),
the telemetry buffer (`Telemetry`), transcript packing (`Transcript`), searching several Wikis (`WikiSearch`), paging
and collecting lists (`Paging`), merging Wiki scopes (`WikiScope`), and the three token accountings (`TokenAccounting`).

## Where the code differs from what it promises

The model follows the code; each difference has a lemma.

- The worker takes an error whose message is empty for success (`capture-worker.ts`, lines 46-47). `post` throws such an
  error when Core refuses with a list that prints as nothing for a message, such as `[]` (`CoreClient.ThrownBlankIff`). A
  capture is then marked done that Core never applied: `CaptureExamples.DoneWithoutApplied` is such a run for each of these
  refusals, and no other response has one (`CaptureExamples.LosesCapturesIff`). With messages that are texts, as Core's
  interface declares, the promise holds in every run (`CaptureTheorems.DoneMeansAppliedOnceAsDeclared`).
- `maxAttempts` bounds the calls of a run without crashes; each crash may repeat the calls under way
  (`CaptureTheorems.CallsWithinBudget`).
- The retry delay is capped at five minutes in the code, but it never exceeds 256 seconds (`EventIds.RetryDelayBounds`).
- Event ids join their fields with NUL characters, and the fields may contain them. Among the contents the hooks accept
  an id stands for one content exactly when no part could be cut cleanly at a NUL (`EventIds.SeedUniqueIff`).
- A stop hook that relied on the stored prompt is refused when it is repeated, not answered as a duplicate
  (`EventIds.RepeatedStop`).
- The Anthropic tap copies the characters of a usage that is a non-empty string, and at the end of a stream it looks only
  for `message_delta`; the passthrough reader does neither (`AnthropicUsage.EventReadersAgree`, `ReadersAgreeIff`,
  `TextUsageDisagrees`, `UndelimitedStartDisagrees`).
- Shutting down the telemetry does not leave the buffer empty: rows recorded during its last await stay there
  (`Telemetry.LateRowIsLeft`), and it can even return while rows recorded before it are still under way
  (`Telemetry.ShutdownIsOvertaken`). It saves the rows recorded before its call, however things go on without a failed
  insert or an overflow, exactly when at the call no flush is under way, no row waits behind it, or no new row can start
  another (`Telemetry.ShutdownSavesEarlierRows`). As long as no row was dropped, `Telemetry.WhatIsLeft` says what is left.
- The loops that collect a list from Core stop after one page when the server sends no total
  (`Paging.CollectedIsLossless`).
- The token accountings agree only under conditions on the usage object (`TokenAccounting`): five-minute cache writes are
  part of the cache creation total, cached tokens fit the prompt, no numeric strings.

## Model

| member | source | states |
|---|---|---|
| `CaptureInvariant.StepKeepsInv` | MemoryAgentGateway/src/capture-worker.ts:16-91 | every hook, prune statement, worker step, remote answer and crash keeps the whole-system invariant: referenced contexts exist, attempts stay below the limit, the snapshot equals its rows, done implies applied, calls stay within the budget, settle windows hold |
| `CaptureInvariant.FinishMarksSafe` | MemoryAgentGateway/src/capture-worker.ts:45-56 | the marks after a handled event touch only pending sinks and end by using up an attempt or the last pending sink |
| `CaptureInvariant.EnvironmentIsQuiet` | MemoryAgentGateway/src/app.ts:23-34 | across an await no hook and no prune statement removes or changes a row or context the worker holds |
| `CaptureInvariant.PruneIsQuiet` | MemoryAgentGateway/src/gateway-store.ts:265-275 | each DELETE of the pruner spares pending rows and the contexts they refer to |
| `CaptureInvariant.CaptureStartKeepsDrain` | MemoryAgentGateway/src/capture-worker.ts:20-44 | the event a lane starts has its context, and starting it keeps the snapshot in step with the tables |
| `CaptureInvariant.CaptureMarkKeepsDrain` | MemoryAgentGateway/src/gateway-store.ts:255-260 | an unconditional mark leaves every other item of the snapshot equal to its row |
| `CaptureTheorems.RunKeepsInv` | MemoryAgentGateway/src/capture-worker.ts:16-91 | the invariant holds at the end of every run |
| `CaptureTheorems.CoreAppliesAtMostOnce` | MemoryAgentGateway/src/core-client.ts:29-31 | with a receiver that deduplicates on the event id, no run applies an event twice, and nothing is applied that was not enqueued |
| `CaptureTheorems.DoneMeansAppliedOnce` | MemoryAgentGateway/src/capture-worker.ts:33-56 | `core_status = done` implies applied exactly once, over every run with crashes and lost answers in which no refusal of a call for the event prints as nothing |
| `CaptureTheorems.DoneMeansAppliedOnceAsDeclared` | MemoryAgentGateway/src/core-client.ts:3 | so in every run in which Core's messages are texts, as its interface declares, and transport errors say something |
| `CaptureTheorems.MarkedDoneIff` | MemoryAgentGateway/src/capture-worker.ts:33-47 | a response marks Core done if and only if it is a success or a refusal that prints as nothing |
| `CoreClient.ThrownBlankIff` | MemoryAgentGateway/src/core-client.ts:96-98 | the worker sees an empty message if and only if Core refused with a list that prints as nothing, or the transport error is empty |
| `CoreClient.TextMessagesAreNotBlank` | MemoryAgentGateway/src/core-client.ts:96-98 | never when the answer's message is a text, also an empty one, or missing |
| `CoreClient.ThrownSays` | MemoryAgentGateway/src/core-client.ts:96-98 | a call succeeds if and only if Core answers well with code 0; otherwise the message is Core's own text, the transport's, or the HTTP status |
| `CaptureTheorems.RejectionMarkedDoneIffBlank` | MemoryAgentGateway/src/capture-worker.ts:46-47 | a rejected call is marked done if and only if its message is empty |
| `CaptureExamples.DoneWithoutApplied` | MemoryAgentGateway/src/core-client.ts:96-98 | for every refusal that prints as nothing, a run in which Core gives it and that ends with `core_status = done` and nothing applied |
| `CaptureExamples.LosesCapturesIff` | MemoryAgentGateway/src/capture-worker.ts:33-47 | some run in which Core gives only a certain response ends with a capture done and not applied, if and only if the response is a refusal that prints as nothing |
| `CaptureExamples.DeliveryHappens` | MemoryAgentGateway/src/capture-worker.ts:33-47 | a run in which Core applies exactly the row's content and the row is done |
| `CaptureTheorems.ContextNeverMissing` | MemoryAgentGateway/src/capture-worker.ts:21-26 | in every reachable state the event about to start has its context, so the "session context expired or missing" branches are dead |
| `CaptureTheorems.InFlightRowsExist` | MemoryAgentGateway/src/gateway-store.ts:265-275 | in every reachable state each waiting or running capture or extraction exists, is pending and equals its row, and no more run than the limit |
| `CaptureTheorems.TerminalSinkAbsorbs` | MemoryAgentGateway/src/gateway-store.ts:255-260 | once a sink is done or dead it keeps that status and is not called again in any run, until its row is pruned |
| `CaptureTheorems.TerminalExtractionAbsorbs` | MemoryAgentGateway/src/gateway-store.ts:224-237 | once an extraction is submitted, skipped or dead it stays so and is not submitted again |
| `CaptureTheorems.CallsWithinBudget` | MemoryAgentGateway/src/capture-worker.ts:48-55 | in any run a sink is called at most maxAttempts times plus once per crash |
| `CaptureTheorems.HookIsNoted` | MemoryAgentGateway/src/app.ts:23-34 | which hooks start or restart the settle window of an extraction |
| `CaptureTheorems.SettleWindow` | MemoryAgentGateway/src/gateway-store.ts:238 | an extraction that has not failed is selected no earlier than the settle delay after its enqueue and after every later tool or stop hook, in any order of hooks |
| `CaptureOutcomes.StartedCapture` | MemoryAgentGateway/src/capture-worker.ts:27-44 | exactly the pending sinks are called, and Core is sent the row's own conversation under its id |
| `CaptureOutcomes.LastAnswerDecides` | MemoryAgentGateway/src/capture-worker.ts:33-56 | once both calls have ended the marks are a run of the queue, after which each called sink is done, dead or to be retried as its own answer says, with the attempts, the due time and the error that go with it; no other row changes |
| `CaptureOutcomes.CaptureIsExplained` | MemoryAgentGateway/src/capture-worker.ts:45-56 | in every reachable state a done sink had a call taken for a success, a dead one a failed call and no fewer failed calls of its event than there are attempts, and every attempt used stands for a failed call |
| `CaptureOutcomes.CapturesCanGoOn` | MemoryAgentGateway/src/capture-worker.ts:16-57 | a drain of captures is never stuck: which steps are possible in each of its states, a call ending in any way its sink may answer |
| `CaptureOutcomes.ExtractionsCanGoOn` | MemoryAgentGateway/src/capture-worker.ts:59-91 | the same for a drain of extractions |
| `ExtractionOutcomes.SettledExtraction` | MemoryAgentGateway/src/capture-worker.ts:82-97 | a successful call submits its extraction with the task id returned and no error; a refused one leaves it dead on the last attempt, otherwise queued with one attempt more and due after the back-off, with the refusal as the error |
| `ExtractionOutcomes.StartedExtraction` | MemoryAgentGateway/src/capture-worker.ts:59-81 | an extraction is submitted if and only if its transcript is worthwhile; otherwise its row is skipped, with the reason, and no call is made |
| `ExtractionOutcomes.SelectedExtractions` | MemoryAgentGateway/src/gateway-store.ts:218-222 | a drain's extractions are those selected, in order, with the attempts of their rows and the verdicts on their transcripts |
| `ExtractionOutcomes.ExtractionIsExplained` | MemoryAgentGateway/src/capture-worker.ts:59-97 | in every reachable state: submitted if and only if one of its calls was answered with success, dead if and only if it was refused maxAttempts times, skipped if and only if a start found no work; while it waits, one attempt used per refusal, the last refusal as its error, and not due before the back-off after it |
| `HookEffects.StopStores` | MemoryAgentGateway/src/gateway-store.ts:189-199 | a stop hook with a text has its row afterwards, new rows pending and due at once, and closes its turn; without a text it changes nothing |
| `HookEffects.PromptStores` | MemoryAgentGateway/src/gateway-store.ts:184-187 | a prompt replaces the one stored for its turn and touches no other |
| `HookEffects.LatestPromptIsStored` | MemoryAgentGateway/src/gateway-store.ts:184-193 | a stop hook without a prompt stores the latest prompt of its turn, after any run that neither ended nor pruned the turn |
| `HookEffects.SuppliedPromptIsStored` | MemoryAgentGateway/src/gateway-store.ts:190-191 | a prompt the hook brings along goes before the stored one |
| `HookEffects.ToolUseStores` | MemoryAgentGateway/src/gateway-store.ts:201-206 | a tool use is stored once, with its input, its response and at most 256 characters of its name |
| `HookEffects.SessionEndStores` | MemoryAgentGateway/src/gateway-store.ts:208-216 | a session end inserts one extraction per session, due after the settle delay |
| `HookEffects.HooksTouch` | MemoryAgentGateway/src/gateway-store.ts:238 | tool uses and stored turns put off the queued extraction of their own context and no other, never to an earlier time |
| `HookEffects.ForeignHookIsIgnored` | MemoryAgentGateway/src/app.ts:18-34 | a hook for an unknown, expired or foreign context changes nothing |
| `HookEffects.PruneTakes` | MemoryAgentGateway/src/gateway-store.ts:265-275 | which rows each DELETE takes away, and that it changes no other |
| `CaptureProgress.StepBudget` | MemoryAgentGateway/src/capture-worker.ts:45-56 | every step that handles an event takes at least one from the sum of unused attempts; only new events add to it |
| `CaptureProgress.HandledWithinBudget` | MemoryAgentGateway/src/capture-worker.ts:45-56 | over any run, events handled plus budget left are at most the budget at the start plus what arrivals brought |
| `CaptureProgress.HandledOverall` | MemoryAgentGateway/src/capture-worker.ts:45-56 | from an empty store at most maxAttempts times the accepted events are ever handled |
| `CaptureProgress.NoBudgetNoPending` | MemoryAgentGateway/src/gateway-store.ts:249-253 | a used-up budget means an empty queue |
| `CaptureProgress.QueueDrains` | MemoryAgentGateway/src/capture-worker.ts:16-57 | without arrivals the number of drains that find work is at most the budget spent, whatever fails or crashes |
| `CaptureProgress.QueueEmpties` | MemoryAgentGateway/src/capture-worker.ts:16-57 | without arrivals the queue is empty once as many drains have found work as there was budget |
| `CaptureProgress.DueRowMakesDrainBusy` | MemoryAgentGateway/src/gateway-store.ts:249-253 | a drain that begins while a row is due finds work |
| `CaptureProgress.BoundedWaiting` | MemoryAgentGateway/src/gateway-store.ts:249-253 | an event that stays due, with only younger arrivals, is passed over by at most B/20 completed drains, B being the unused attempts of pending events at least as old |
| `ExtractionProgress.SubmissionsWithinBudget` | MemoryAgentGateway/src/capture-worker.ts:80-97 | in any run an extraction is submitted at most maxAttempts times plus once per crash |
| `ExtractionProgress.StepBudget` | MemoryAgentGateway/src/capture-worker.ts:59-97 | every extraction settled or skipped uses up an attempt of those in scope; only new extractions bring any |
| `ExtractionProgress.HandledWithinBudget` | MemoryAgentGateway/src/capture-worker.ts:59-97 | over any run, extractions handled plus budget left are at most the budget at the start plus what arrivals brought |
| `ExtractionProgress.ExtractionsEmpty` | MemoryAgentGateway/src/capture-worker.ts:59-97 | without arrivals the drains that find extractions are at most the budget spent, and once there are that many none is queued |
| `ExtractionProgress.BoundedWaiting` | MemoryAgentGateway/src/gateway-store.ts:218-222 | an extraction that stays due, with only younger arrivals, is passed over by at most B/10 completed drains, B being the unused attempts of queued extractions at least as old |
| `EventIds.SeedUniqueIff` | MemoryAgentGateway/src/gateway-store.ts:193 | for contents the hooks accept: within a context an id belongs to one content if and only if no part has a NUL, free of white space beside it, at which it could be cut |
| `EventIds.AmbiguousCollides` | MemoryAgentGateway/src/gateway-store.ts:193 | where there is one, another content the hooks accept with the same id |
| `EventIds.FieldIsTrimmed` | MemoryAgentGateway/src/app.ts:177-178 | the accepted fields are the non-empty texts that trimming leaves alone |
| `EventIds.SeedIsUnique` | MemoryAgentGateway/src/gateway-store.ts:193 | across contexts, equal ids mean equal contents when context id, turn id and prompt hold no NUL |
| `EventIds.SeedOfNulFree` | MemoryAgentGateway/src/gateway-store.ts:193 | a content free of NULs shares its id with no other content of any context |
| `EventIds.AppliedIsTheRow` | MemoryAgentGateway/src/capture-worker.ts:28-37 | in every run, what Core applied under the id of a NUL-free row is exactly that row's conversation |
| `EventIds.RunKeepsNames` | MemoryAgentGateway/src/gateway-store.ts:189-199 | in every run each capture row holds the content its id was made from |
| `EventIds.DuplicateIsRecorded` | MemoryAgentGateway/src/gateway-store.ts:195-198 | in every reachable state a NUL-free hook answered as a duplicate has a row with exactly its content |
| `EventIds.RepeatedStop` | MemoryAgentGateway/src/gateway-store.ts:189-199 | a repeated stop hook changes nothing; it is a duplicate if it brings its prompt and refused if it relied on the stored one |
| `EventIds.RepeatedAfterRun` | MemoryAgentGateway/src/gateway-store.ts:189-199 | a stop hook that brings its prompt, sent again after any run that prunes no capture, changes no capture |
| `EventIds.OtherSeedsAreUnique` | MemoryAgentGateway/src/gateway-store.ts:202-212 | NUL-free tool uses and sessions have ids of their own |
| `EventIds.RetryDelayBounds` | MemoryAgentGateway/src/gateway-store.ts:258 | the delay never falls as attempts grow and lies between 1 and 256 seconds, below the cap in the code |
| `GatewayStoreClass.SelectOldest` | MemoryAgentGateway/src/gateway-store.ts:249-253 | the selection holds only admitted rows, oldest first, within the limit, and leaves a row out only for ones no younger |
| `GatewayStoreClass.GatewayStore.OpenContext` | MemoryAgentGateway/src/gateway-store.ts:105-115 | returns the newest live context of exactly this principal, team, agent and place, or inserts exactly one |
| `GatewayStoreClass.GatewayStore.DueCaptures` | MemoryAgentGateway/src/gateway-store.ts:249-253 | the oldest due captures within the limit |
| `GatewayStoreClass.GatewayStore.DueSkillExtractions` | MemoryAgentGateway/src/gateway-store.ts:218-222 | the oldest due extractions within the limit |
| `GatewayStoreClass.GatewayStore.IssueWorkspaceBindingRequest` | MemoryAgentGateway/src/gateway-store.ts:144-165 | returns the newest live request of exactly this principal, workspace and place, or inserts exactly one |
| `StoreEffects.RetryWaits` | MemoryAgentGateway/src/gateway-store.ts:257-260 | after a retry no selection returns the row before its back-off is over, and it is due again exactly from then on |
| `StoreEffects.EndedIsNeverDue` | MemoryAgentGateway/src/gateway-store.ts:255-256 | with both sinks ended, either way and in either order, a row is never due again |
| `StoreEffects.TouchWaits` | MemoryAgentGateway/src/gateway-store.ts:238 | a touch makes nothing due, and no selection returns an extraction of its context before the delay is over |
| `StoreEffects.OpenedIsLive` | MemoryAgentGateway/src/gateway-store.ts:105-120 | an opened context is found for its principal, agent and place, and is usable, until it expires, also after pruning |
| `StoreEffects.IssuedIsLive` | MemoryAgentGateway/src/gateway-store.ts:144-165 | the same for a binding request |
| `StoreEffects.RemovedCannotComplete` | MemoryAgentGateway/src/gateway-store.ts:138-142 | after a removal exactly the requests for other workspaces can still be completed |
| `StoreEffects.RelabelKeepsAgent` | MemoryAgentGateway/src/gateway-store.ts:133-136 | a new label changes nothing but label and time of one row, and nothing at all when it is the old one |
| `StoreEffects.PruneIsInvisible` | MemoryAgentGateway/src/gateway-store.ts:265-275 | the six DELETE statements change neither what is due at any time nor which contexts, requests and bindings are usable later |
| `CaptureWorkerClass.CaptureWorker.BeginDrain` | MemoryAgentGateway/src/capture-worker.ts:16-20 | does nothing while a drain runs; otherwise it is the snapshot step of the queue |
| `CaptureWorkerClass.CaptureWorker.RecordResults` | MemoryAgentGateway/src/capture-worker.ts:45-56 | the loops over the settled calls run exactly the marks of the queue, in order |
| `CaptureWorkerClass.CaptureWorker.MarkSuccesses` | MemoryAgentGateway/src/capture-worker.ts:47 | marks every result without an error, in order |
| `CaptureWorkerClass.CaptureWorker.MarkFailures` | MemoryAgentGateway/src/capture-worker.ts:48-56 | dead-letters every failed sink on the last attempt, otherwise one retry |
| `CaptureWorkerClass.ResultMarksAreFinishMarks` | MemoryAgentGateway/src/capture-worker.ts:45-56 | the result loops compute the marks the queue's model prescribes |
| `CaptureWorkerClass.MarksAreSteps` | MemoryAgentGateway/src/capture-worker.ts:47-56 | running the marks one by one is a run of mark steps that ends the job |
| `CaptureWorkerClass.RowAfterMarks` | MemoryAgentGateway/src/capture-worker.ts:45-56 | for all call results: each called sink is done, dead or pending, attempts are shared, a retried row is due after the back-off, the error names the failed sinks or is the last one's, no other row changes |
| `WorkerPool.PoolIsSafe` | MemoryAgentGateway/src/capture-worker.ts:104-114 | in every schedule indices go out once each and in order, never more than the limit are in flight, and a resolved pool has a result for every index |
| `WorkerPool.PoolResolves` | MemoryAgentGateway/src/capture-worker.ts:104-114 | every schedule resolves after exactly two steps per item and one per lane, and until then some lane can move |
| `WorkerPool.MapLimitIsMap` | MemoryAgentGateway/src/wiki-service.ts:162-166 | in every schedule `mapLimit` ends with result i at position i |
| `WorkerPool.ResultsStay` | MemoryAgentGateway/src/wiki-service.ts:162-166 | a stored result is never replaced |
| `WorkerPool.WidthsAre` | MemoryAgentGateway/src/capture-worker.ts:104-107 | as many lanes as the limit says, at least one and no more than items; four for `mapLimit` |
| `WorkerPool.DrainOpensPool` | MemoryAgentGateway/src/capture-worker.ts:20-59 | a drain that begins, and one that turns to its extractions, corresponds to a fresh pool |
| `WorkerPool.TakeStartsItem` | MemoryAgentGateway/src/capture-worker.ts:104-114 | a lane that takes a capture or an extraction makes a step the queue allows, and pool and queue stay in step |
| `WorkerPool.FinishKeepsDrives` | MemoryAgentGateway/src/capture-worker.ts:107-112 | a lane whose callback returned becomes ready and the two stay in step |
| `WorkerPool.OtherStepsKeepDrives` | MemoryAgentGateway/src/capture-worker.ts:45-97 | settling and marking a capture, and settling an extraction, leave pool and queue in step |
| `WorkerPool.ResolvedMeansDrained` | MemoryAgentGateway/src/capture-worker.ts:20-63 | when `concurrent` returns, for captures or extractions, nothing of them is waiting or under way |
| `WorkerPool.SchedulesAreRuns` | MemoryAgentGateway/src/capture-worker.ts:104-114 | every schedule of the lanes, over captures or extractions, with hooks, pruning, answers and marks in between, is a run of the queue |
| `WorkerPool.DrainIsQueueRun` | MemoryAgentGateway/src/capture-worker.ts:20-63 | so is every drain of captures, and every one of extractions, from its selection on; when it resolves the queue has nothing left of it |
| `SseText.SplitInChunks` | MemoryProxy/src/handler.ts:1481-1492 | splitting a text in two chunks with a kept remainder gives the pieces of the whole |
| `SseText.LinesByPart` | MemoryProxy/src/handler.ts:1481-1501 | the lines of a text are the lines of its blank-line parts, an empty line after each, and those of the remainder |
| `SseText.PiecesAreClean` | MemoryProxy/src/handler.ts:1481-1492 | no piece, and no remainder, contains the delimiter |
| `SseText.TrimIs` | MemoryProxy/src/handler.ts:1415-1418 | trimming takes the white space off both ends, all of it, and nothing else |
| `UsageTap.ExtractSseUsage` | MemoryProxy/src/handler.ts:213-233 | the last usage object of the lines |
| `UsageTap.ExtractSseContentAndTools` | MemoryProxy/src/handler.ts:1411-1450 | the concatenated content and all tool-call fragments of the lines, in order |
| `UsageTap.MergeToolCallDeltas` | MemoryProxy/src/handler.ts:1452-1467 | the loop folds the fragments into the accumulators |
| `UsageTap.CallsByIndex` | MemoryProxy/src/handler.ts:1452-1467 | whatever the interleaving, the call at an index collects exactly its own fragments in order, and its last id and type |
| `UsageTap.Tap.ProcessSseChunk` | MemoryProxy/src/handler.ts:1481-1492 | after every chunk the tap holds what the extractors find in the complete parts of the text so far |
| `UsageTap.Tap.Finalize` | MemoryProxy/src/handler.ts:1494-1501 | at the end it holds what they find in the whole text |
| `UsageTap.TapStream` | MemoryProxy/src/handler.ts:1472-1501 | for every chunking: usage, content and tool calls are those of the undivided text, and the passthrough reader finds the same usage |
| `OpenAIStream.TapReadsBack` | MemoryProxy/src/handler.ts:1411-1501 | for any events, any JSON that says them and any chunks: the tap ends with all text in order, per index the concatenated names and arguments and the last id and type, and the last usage |
| `OpenAIStream.EventsCanBeCarried` | MemoryProxy/src/handler.ts:1411-1446 | for any list of events there is such a stream |
| `ThinkingFix.FramingPreserved` | MemoryProxy/src/anthropicHandler.ts:1513-1607 | splitting the output again yields exactly the patched parts of the input, blank tail dropped |
| `ThinkingFix.FixIsIdempotent` | MemoryProxy/src/anthropicHandler.ts:1513-1607 | rewriting a rewritten stream changes nothing |
| `ThinkingFix.CodecExists` | MemoryProxy/src/anthropicHandler.ts:1550-1584 | the round trip asked of parsing and printing can be met, by a codec for every value |
| `ThinkingFix.RepairIsLocal` | MemoryProxy/src/anthropicHandler.ts:1550-1582 | an event is rewritten if and only if its thinking block has no text but can be given one, and only that block's `thinking` changes, to that text; a part whose value has no text form is passed on |
| `ThinkingFix.OutputIsRepaired` | MemoryProxy/src/anthropicHandler.ts:1522-1605 | the output, read back: every part whose last payload is an event with a thinking block without text carries that event with exactly the text it can be given; every other part and line is as it came |
| `ThinkingFix.TextIsItsParts` | MemoryProxy/src/anthropicHandler.ts:1525-1526 | splitting loses nothing: the parts with their blank lines and the remainder are the text |
| `ThinkingFix.FixKeepsFraming` | MemoryProxy/src/anthropicHandler.ts:1543-1594 | a patched part still contains no blank line and joins its delimiter cleanly |
| `ThinkingFix.FixStream.EmitPart` | MemoryProxy/src/anthropicHandler.ts:1528-1595 | emits the patched part with its delimiter and counts the patch |
| `ThinkingFix.FixStream.Transform` | MemoryProxy/src/anthropicHandler.ts:1522-1596 | after every chunk the output is a function of the text so far |
| `ThinkingFix.FixStream.Flush` | MemoryProxy/src/anthropicHandler.ts:1598-1605 | the whole output is a function of the whole input, whatever the chunking |
| `AnthropicUsage.EventReadersAgree` | MemoryProxy/src/systemUserPassthrough.ts:693-715 | the two readers treat an event alike, whatever came before, if and only if its usage is no non-empty string |
| `AnthropicUsage.ReadersAgree` | MemoryProxy/src/systemUserPassthrough.ts:646-715 | with a blank remainder and no usage given as a string, both readers merge the same usage |
| `AnthropicUsage.ReadersAgreeIff` | MemoryProxy/src/systemUserPassthrough.ts:646-715 | for any stream: they hold the same usage after every event and at the end if and only if no textual usage adds anything new and the remainder adds the same for both |
| `AnthropicUsage.RemaindersAgree` | MemoryProxy/src/anthropicHandler.ts:1905-1924 | which unfinished events at the end the readers treat alike, as an equivalence |
| `AnthropicUsage.SpacedRemaindersAgree` | MemoryProxy/src/anthropicHandler.ts:1905-1924 | for a last data line with its space: all but a delta with textual usage and a start with any usage |
| `AnthropicUsage.DelimitedLeavesNothing` | MemoryProxy/src/anthropicHandler.ts:1853-1870 | a stream that ends with a blank line leaves a blank remainder |
| `AnthropicUsage.ConsumeAnthropicStream` | MemoryProxy/src/anthropicHandler.ts:1853-1924 | for every chunking the tap's usage, text and tool count are functions of the text |
| `AnthropicUsage.TapPart` | MemoryProxy/src/anthropicHandler.ts:1864-1902 | one event's effect on usage, text and tool count |
| `AnthropicUsage.DrainRest` | MemoryProxy/src/anthropicHandler.ts:1905-1924 | at the end the tap looks only for a `message_delta` on a `data: ` line |
| `AnthropicUsage.MergeUsageFromEvent` | MemoryProxy/src/systemUserPassthrough.ts:693-715 | one event's effect on the merged usage |
| `AnthropicUsage.ConsumeStream` | MemoryProxy/src/systemUserPassthrough.ts:646-690 | for every chunking the merged usage is a function of the text and the captured text is its first 524288 characters |
| `AnthropicUsage.TextUsageDisagrees` | MemoryProxy/src/anthropicHandler.ts:1881-1890 | on the stream of any event with its usage as a string the readers differ |
| `AnthropicUsage.UndelimitedStartDisagrees` | MemoryProxy/src/anthropicHandler.ts:1905-1924 | on the stream of any `message_start` with a usage and no delimiter the readers differ |
| `AnthropicStream.ReadersReadBack` | MemoryProxy/src/anthropicHandler.ts:1853-1902 | for any events, any JSON that says them, any lines in front of the payload and any chunks: both readers end with the usage of starts (from their message) and deltas, each overriding the ones before, the tap with all text deltas in order and the number of tool_use starts |
| `AnthropicStream.StartThenDelta` | MemoryProxy/src/anthropicHandler.ts:1881-1890 | what a delta says overrides what the start said, key by key |
| `AnthropicStream.UnfinishedEvent` | MemoryProxy/src/anthropicHandler.ts:1905-1924 | a last event without its blank line: the passthrough reader reads it, the tap only the usage of a delta |
| `AnthropicStream.CopiedByPosition` | MemoryProxy/src/anthropicHandler.ts:1881-1890 | `Object.assign` copies an array's items and a text's characters under their positions |
| `Telemetry.StepKeepsInv` | MemoryKnowledge/src/clickhouse-telemetry.ts:187-229 | records, timer, answers and shutdown steps keep the buffer's bound, the order of rows, one flush at a time, and the count of rows that are acknowledged or under way |
| `Telemetry.RowsAreConserved` | MemoryKnowledge/src/clickhouse-telemetry.ts:187-229 | in any run acknowledged, in-flight and buffered rows are a subsequence of those recorded, all of them without an overflow, none acknowledged more often than recorded, the buffer within 10000 |
| `Telemetry.RecordedRow` | MemoryKnowledge/src/clickhouse-telemetry.ts:187-195 | a row goes behind the others, a full buffer keeping its newest 4999, and reaching the threshold sends all of them unless a flush is under way |
| `Telemetry.InsertEnds` | MemoryKnowledge/src/clickhouse-telemetry.ts:209-222 | a success acknowledges the rows sent; a failure puts them in front, and of more than 10000 the newest 5000 are kept |
| `Telemetry.TimerSends` | MemoryKnowledge/src/clickhouse-telemetry.ts:183-184 | the timer sends all rows that wait unless a flush is under way |
| `Telemetry.WhatIsLeft` | MemoryKnowledge/src/clickhouse-telemetry.ts:197-222 | as long as no row was dropped, also after failed inserts: what was recorded before a flush last took the buffer and has not been put back is acknowledged or under way, the rest is in the buffer, and everything is acknowledged if and only if nothing is there and no insert is under way |
| `Telemetry.ShutdownSavesEarlierRows` | MemoryKnowledge/src/clickhouse-telemetry.ts:197-206 | from any state at the call: every continuation without a failed insert and without an overflow acknowledges the rows held at the call before shutdown returns, if and only if no flush is under way at the call, or no row waits behind it, or the buffer is full, or the threshold is beyond its bound |
| `Telemetry.ReachableCalls` | MemoryKnowledge/src/clickhouse-telemetry.ts:197-206 | that equivalence at every call of a program run, whatever failed or was dropped before |
| `Telemetry.CleanRunSaves` | MemoryKnowledge/src/clickhouse-telemetry.ts:197-217 | at every stage of a shutdown the rows it is to save stay on their way, so that they are acknowledged when it returns, and no row is lost |
| `Telemetry.UnsafeCallLeavesRows` | MemoryKnowledge/src/clickhouse-telemetry.ts:200-206 | from every other state at the call, a run in which all inserts succeed and shutdown returns before those rows are acknowledged |
| `Telemetry.LateRowIsLeft` | MemoryKnowledge/src/clickhouse-telemetry.ts:197-203 | a run in which every insert succeeds and a row recorded during the last await is left when shutdown returns |
| `Telemetry.ShutdownIsOvertaken` | MemoryKnowledge/src/clickhouse-telemetry.ts:200-206 | such a run from the start: a row recorded before shutdown is still under way when it returns |
| `Telemetry.Buffer.RecordToolCall` | MemoryKnowledge/src/clickhouse-telemetry.ts:187-195 | the object's method is the step of the buffer and keeps its invariant |
| `Telemetry.Buffer.SettleInsert` | MemoryKnowledge/src/clickhouse-telemetry.ts:209-217 | the same for an insert's outcome |
| `Telemetry.Buffer.ResumeShutdown` | MemoryKnowledge/src/clickhouse-telemetry.ts:200-203 | the same for the part of shutdown between its awaits |
| `Transcript.BuildBundle` | MemoryAgentGateway/src/gateway-store.ts:281-290 | user first, assistant last, each kept call followed by its own result, the last 249 tool uses kept |
| `Transcript.BundleUnique` | MemoryAgentGateway/src/gateway-store.ts:281-290 | that description fixes a turn's messages completely |
| `Transcript.BundleReads` | MemoryAgentGateway/src/gateway-store.ts:281-290 | the messages one by one: each of the last 249 tool uses as its input and then its response, under its own name and id, and long texts cut to their first and last 16000 characters |
| `Transcript.PackSuffix` | MemoryAgentGateway/src/gateway-store.ts:291-293 | the backward loop with its two exits finds the longest suffix of whole turns within 500 messages |
| `Transcript.LongestFitUnique` | MemoryAgentGateway/src/gateway-store.ts:291-293 | there is only one such suffix |
| `Transcript.SkillTranscript` | MemoryAgentGateway/src/gateway-store.ts:278-294 | the transcript is that suffix and always holds the latest turn |
| `Transcript.TranscriptUnique` | MemoryAgentGateway/src/gateway-store.ts:278-294 | the description of the transcript determines it |
| `Transcript.Judge` | MemoryAgentGateway/src/capture-worker.ts:65-79 | worthwhile if and only if there are two tool calls, or one and 500 characters of work |
| `Transcript.BundleCounts` | MemoryAgentGateway/src/capture-worker.ts:69-72 | the two counts on a turn: its kept tool uses, and the length of what the user and the assistant said |
| `WorkspaceBinding.NoResurrection` | MemoryAgentGateway/src/app.ts:68-70 | after an unbind no earlier request and no validation in flight can bring the binding back until a new request is issued |
| `WorkspaceBinding.PrincipalsAreIsolated` | MemoryAgentGateway/src/app.ts:35-70 | a step on behalf of one principal changes no binding, request or context of another |
| `WorkspaceBinding.EmptyStoreInv` | MemoryAgentGateway/src/gateway-store.ts:51-101 | a new store meets the invariant the uniqueness claim starts from |
| `WorkspaceBinding.LiveRowsAreUnique` | MemoryAgentGateway/src/gateway-store.ts:105-165 | with a clock that does not go back, at most one live context and one live request per identifying tuple, and only agents the directory confirmed are bound |
| `WorkspaceBinding.CompleteThenRebind` | MemoryAgentGateway/src/gateway-store.ts:167-182 | completing twice rebinds only the request's workspace and keeps its creation time |
| `WorkspaceBinding.FinishedOpening` | MemoryAgentGateway/src/app.ts:35-50 | a finished opening with a usable request of its own principal binds that workspace to the confirmed agent and leaves a live context for it at the request's place; with any other request nothing changes |
| `WorkspaceBinding.ValidatedOpening` | MemoryAgentGateway/src/app.ts:88-96 | a bound workspace that is confirmed again gets a live context, an old one or exactly one new one |
| `WorkspaceBinding.IssuedRequest` | MemoryAgentGateway/src/gateway-store.ts:144-165 | a request is the live one of the same principal, workspace and place, or exactly one new one with all its fields |
| `WorkspaceBinding.UnboundWorkspace` | MemoryAgentGateway/src/gateway-store.ts:138-142 | unbinding takes the workspace's binding and all its requests and nothing else |
| `WorkspaceBinding.RelabeledBinding` | MemoryAgentGateway/src/gateway-store.ts:133-136 | a new label reaches the binding it is meant for and no other row |
| `AuthCache.Authenticator.Lookup` | MemoryAgentGateway/src/auth.ts:28-37 | a cached verdict came from a directory call for that credential started less than its time to live ago, the longer one for an accepted and the shorter one for a refused key; an expired entry is deleted |
| `AuthCache.Authenticator.Remember` | MemoryAgentGateway/src/auth.ts:37-48 | the cache never exceeds its limit, the oldest entries go first, every other entry stays, and the new one lives as long as its verdict says from the start of its call |
| `AuthCache.Authenticator.Evict` | MemoryAgentGateway/src/auth.ts:46 | keeps exactly the newest entries that leave room for one |
| `AuthCache.WithoutKeeps` | MemoryAgentGateway/src/auth.ts:35 | deleting a key removes its entry and no other |
| `WikiSearch.StableSortIsUnique` | MemoryAgentGateway/src/wiki-service.ts:66 | the result of a stable sort by score is determined, whatever the algorithm |
| `WikiSearch.SortIsRankMajor` | MemoryAgentGateway/src/wiki-service.ts:59-66 | sorting all hits by reciprocal-rank score gives every first hit in Wiki order, then every second, and so on |
| `WikiSearch.SearchIsInterleave` | MemoryAgentGateway/src/wiki-service.ts:48-68 | the results are the first `limit` of that interleave |
| `WikiSearch.SearchEnds` | MemoryAgentGateway/src/wiki-service.ts:48-68 | the three ends, each as an equivalence on the answers: all failed with a message, a hit without a path, or results; with the failed Wikis and what they said, in order |
| `WikiSearch.LimitIs` | MemoryAgentGateway/src/wiki-service.ts:157 | the limit a search keeps to: the whole part of the one asked for, between 1 and 20, and 10 when none is given |
| `WikiSearch.ResultsAreFair` | MemoryAgentGateway/src/wiki-service.ts:59-67 | results are distinct, keep each Wiki's order, and no better placed hit of any Wiki is left out |
| `WikiSearch.TopHitsShown` | MemoryAgentGateway/src/wiki-service.ts:59-67 | every answering Wiki's best hit is shown if and only if there are no more such Wikis than the limit |
| `Paging.FollowIsLossless` | MemoryAgentGateway/src/wiki-service.ts:70-79 | following the cursors over a fixed list returns each item once and in order, whatever page sizes are asked for |
| `Paging.FollowLength` | MemoryAgentGateway/src/wiki-service.ts:70-79 | it takes max(1, ceil(n/p)) requests |
| `Paging.PageSizeIs` | MemoryAgentGateway/src/wiki-service.ts:74 | the page size: the whole part of the one asked for, between 1 and 100, and 50 when none is given |
| `Paging.CursorsAgree` | MemoryAgentGateway/src/service.ts:24-31 | the scene pagination computes the same pages and cursors |
| `Paging.MetaPages` | MemoryAgentGateway/src/core-client.ts:130-138 | what the collecting loop ends with against a stable server, for any reported total |
| `Paging.CollectedIsLossless` | MemoryAgentGateway/src/core-client.ts:67-78 | that is the server's list if and only if one page is enough or the total covers the list's last page |
| `WikiScope.MergeScopes` | MemoryAgentGateway/src/wiki-service.ts:26-38 | the incremental map equals grouping all supplies by Wiki, in order of first supply |
| `WikiScope.ScopeIsExact` | MemoryAgentGateway/src/wiki-service.ts:26-40 | each supplied ready Wiki once, its bindings exactly the (team, agent) pairs that supply it, each once |
| `WikiScope.ScopeReads` | MemoryAgentGateway/src/wiki-service.ts:26-40 | only items of type wiki and status ready, each under agents whose pages offer it, every offering team and agent among them and none twice |
| `TokenAccounting.AnthropicAccountsAgree` | MemoryProxy/src/credit-reporter.ts:138-147 | credit buckets, ClickHouse prompt tokens and Langfuse input parts are one number if and only if five-minute writes do not exceed the cache creation total; then the row's columns determine the buckets, and so the credit at any prices |
| `TokenAccounting.OpenAIAccountsAgree` | MemoryProxy/src/credit-reporter.ts:147-159 | for OpenAI and DeepSeek usage, which counters make the credit buckets sum to ClickHouse's prompt tokens, as an equivalence |
| `TokenAccounting.PlainOpenAIAgrees` | MemoryProxy/src/clickhouse.ts:503-530 | plain OpenAI usage: all three agree; a DeepSeek hit counter is not seen by the credit buckets |
| `TokenAccounting.LangfuseAgreesWithClickHouse` | MemoryProxy/src/langfuse.ts:228-258 | the input parts sum to ClickHouse's prompt tokens if and only if cached tokens fit the reported prompt |
| `TokenAccounting.LangfusePartsSumToTotal` | MemoryProxy/src/langfuse.ts:208-258 | when the parts sum to `total`, as an equivalence |
| `TokenAccounting.NumericStringsDiffer` | MemoryProxy/src/credit-reporter.ts:198-205 | a numeric string is charged but not recorded |
| `TokenAccounting.AnthropicCreditPaysForTheRow` | MemoryProxy/src/credit-reporter.ts:138-174 | credit at any one price pays for each recorded token exactly once if and only if five-minute writes do not exceed the cache creation total, and otherwise at no price |
| `TokenAccounting.OpenAICreditPaysForTheRow` | MemoryProxy/src/credit-reporter.ts:147-174 | the same for OpenAI usage with a prompt, if and only if the cached tokens fit it |
| `TokenAccounting.KindsAreAdded` | MemoryProxy/src/credit-reporter.ts:167-174 | the credit at any prices is the sum of what each kind of token costs by itself |
| `TokenAccounting.OneKind` | MemoryProxy/src/credit-reporter.ts:167-174 | each kind of token costs its own price per thousand |
| `TokenAccounting.AnthropicKinds` | MemoryProxy/src/credit-reporter.ts:138-147 | which tokens of an Anthropic call are of which kind |
| `TokenAccounting.OpenAIKinds` | MemoryProxy/src/credit-reporter.ts:147-159 | which tokens of an OpenAI call are of which kind |
| `TokenAccounting.OpenAIRow` | MemoryProxy/src/clickhouse.ts:503-530 | what ClickHouse records of an OpenAI or DeepSeek call with a prompt |
| `TokenAccounting.OpenAIDetails` | MemoryProxy/src/langfuse.ts:208-258 | what Langfuse is told of it: cached tokens are taken out of the prompt as far as they fit |

## Left out

- HTTP, routing, MCP, SQLite and timers: tables are maps, calls end with an arbitrary outcome, the clock is a parameter. Each statement reads the clock once.
- Random ids are parameters that must be unused. SHA-256 is taken to be injective, so an event id is modelled by the text that is hashed.
- JSON parsing and printing are abstract functions; the order of object keys, base64 and UTF-8 decoding are not part of the model. A text is a sequence of characters, without surrogate pairs.
- Store methods that throw inside a drain: a rejecting callback would release the drain flag early.
- A hook's insert and its touch are one step; the statements of the pruner and of the worker are separate steps.
- Effectively-once delivery to the skill sink: that call carries no idempotency key. Only "not called again once done or dead" is proved.
- `CaptureTheorems.SettleWindow`: limited to extractions that have not failed yet, because a retry overwrites the due time.
- `AnthropicUsage.ReadersAgreeIff`: agreement after every event, because at the end alone a later event can overwrite a difference.
- `Telemetry.ShutdownSavesEarlierRows`: is about the rows recorded before the call, not an empty buffer, because rows may be recorded during both awaits; continuations in which an insert fails or rows are dropped after the call are covered by `Telemetry.RowsAreConserved` only.
- `OpenAIStream.TapReadsBack`: a usage given as an array is not among the events.
- `AnthropicStream.ReadersReadBack`: a usage given as an array, a text or another value is not among the events; `AnthropicUsage.EventReadersAgree` and `AnthropicStream.CopiedByPosition` cover those.
- Telemetry rows are values; building and redacting them is not modelled, and `shutdown` is called once.
- The exact text of numbers in error messages; only that it is not empty matters.
- Messages of transport errors are parameters: whether the platform ever gives an empty one is not part of this model.
- `WorkspaceBinding.PrincipalsAreIsolated`: does not cover the removal of a stale binding while a workspace is resolved (`app.ts:90-100`), which reads, awaits and then removes.
- `Paging.MetaPages`: a server whose list changes between pages is not modelled.
- `WikiScope.ScopeIsExact`: the final sort by `localeCompare` is not modelled, so the order is that of first supply.
- In the queue the verdict on a transcript is arbitrary; `Transcript.Judge` says how it is reached. The ORDER BY of the transcript queries is an input.
- Workers that throw in the pool, the selection of Wikis by id, reading pages and sources, related pages, the caches of resolved scopes.
- `clickhouse.ts` flushing and its buffer, pricing tables, the recognition of the protocol and upstream by regular expression, rounding of numbers, infinities and NaN.
- An authentication cache configured for no entries at all, on which the eviction loop of the code does not end.
- Validation and bounding of hook fields, sanitising of tool payloads, session injection, rate limiting, checkpoints and the memory pipeline.
