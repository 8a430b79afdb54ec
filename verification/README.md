# Verified model of the pi agent stack

A Dafny model of five parts of the repository whose correctness depends on ordering,
interleaving, in-place updates or careful arithmetic, with proofs of the promises their
code and comments make.  `dafny verify dfyconfig.toml` checks everything.

**Model catalogs** (`ModelCatalog`, `ModelCatalogSafety`, `ModelCatalogProgress`,
`ModelCatalogEffects`, `ModelsRuntime`).
`ModelsImpl` runs overlapping refreshes per provider: a generation counter, one abort
controller per live refresh, and a per-provider promise chain that persists before it
updates memory.  The protocol is a small-step system in which each stretch of code
between two `await`s is one action and any enabled action may run next; a disabled
action does nothing, so a lemma over all action sequences is a lemma over all
interleavings.  The store may already hold snapshots that an earlier process wrote.
Every store effect gets an index, and what a provider shows in memory carries the index
of the snapshot it came from.  The methods of the class `ModelsImpl` change its fields
in place and are each proved to be one action of that system.  What must never happen is
proved over all schedules; what an undisturbed refresh achieves, and what stops one, is
proved from every reachable state.

**The agent run engine** (`AgentTypes`, `EventWord`, `EventOrder`, `ToolExecution`,
`LiveState`, `ToolBatch`, `ParallelBatch`, `AgentLoop`, `TurnGrammar`, `QueueSteps`,
`AgentRun`, `Agents`).  The two nested loops, sequential and parallel tool batches, the two message
queues, the event stream and the reducer that turns it into the agent's state.  What
happens to the queues over a run is a list of steps, calls of the user and polls of the
loop, and every method up to `Agent.prompt` and `Agent.continue` leaves the queues
exactly as its list says.  Providers, tools, hooks and the abort signal answer from a
script; parallel tools run under a scheduler that picks any call with something left to
do.  A script has one entry per turn, and a run that needs more is cut there, so what is
said of a cut run holds at every turn boundary of every run.  `EventWord.Track` is the
language of event words: a word is in the language if it never reaches `Bad`.
`EventOrder` says what that means without the tracker.

**The RPC link** (`RpcParser`, `RpcClient`, `StateCache`).  Incremental line framing,
request/response correlation, and the cached agent state, the latter as a system of
client, backend and two first-in-first-out channels in which the continuation of a
`get_state` call may run arbitrarily later than its answer arrives.

**The layout tree** (`StackSizes`, `ScrollViews`, `BoxTrees`, `LayoutBoxes`, `Layout`,
`Frames`).  Boxes are objects that are moved and re-clipped in place; each in-place
operation is proved equal to a function on the tree's value, and the laws are proved of
the values.  Views scroll between two layouts of a frame, which stays searchable.

**Matchers** (`Strings`, `Sorting`, `Fuzzy`, `KittySequences`, `Keys`, `KeyAgreement`,
`KeyMatching`).  The fuzzy matcher's greedy scan and its score, and for Kitty keyboard
sequences (Kitty keyboard protocol, "An overview", CSI u form) which identifiers
`matchesKey` accepts and when that includes the one `parseKey` gives.

Where code and documentation differ, the code is modelled: `matchesKey` does not accept
everything that `parseKey` names (`KeyAgreement.ParsedKeyMatches` says exactly when it
does), the reducer's pending set loses a call when two running calls share an id
(`EventWord.PendingExactIffNoTwins`; `AgentRun.RunLoop` says which scripts cannot do
that), a reused request id orphans a request (`RpcClient.ExactIffNoReuse`) and leaves
its timer armed after a close (`RpcClient.CloseLeavesOrphanTimers`), a stream with two
starts leaves a stale message in the context (`AgentLoop.StreamAssistantResponse`), and
framing drops empty records and a record's final carriage return
(`RpcParser.RoundTrip`).

## Model

| member | source | states |
|---|---|---|
| ModelCatalogSafety.CatalogNeverMovesBack | packages/ai/src/models.ts:338-384 | over any initial store and under every interleaving of refreshes, aborts and provider changes, the snapshot index shown by a `createProvider` provider never decreases, although store reads are not on the chain |
| ModelCatalogSafety.UpdatesAreCurrent | packages/ai/src/models.ts:801-827 | any single action leaves that index or raises it, and changes the catalog only for a refresh that is the newest and not aborted |
| ModelCatalogSafety.NoStaleUpdate | packages/ai/src/models.ts:345-357 | for providers of any kind, no action of any reachable state changes a catalog on behalf of a superseded or aborted refresh |
| ModelCatalogSafety.OnePublicationInFlight | packages/ai/src/models.ts:344-363 | in every reachable state at most one publication per provider is between its first check and its end, even after its caller returned on abort |
| ModelCatalogSafety.WritesInGenerationOrder | packages/ai/src/models.ts:345-353 | in every reachable state the store has seen a provider's writes in non-decreasing generation order, none beyond the current generation |
| ModelCatalogSafety.UpdatesInGenerationOrder | packages/ai/src/models.ts:345-357 | the same for the updates of a provider's memory |
| ModelCatalogSafety.RunningIsNewestOrAborted | packages/ai/src/models.ts:320-336 | every refresh still running holds the newest generation or has an aborted signal |
| ModelCatalogSafety.ClearAbortsAll | packages/ai/src/models.ts:279-284 | after `clearProviders` every running refresh has an aborted signal, including those of providers replaced or deleted before |
| ModelCatalogSafety.ShownWasPersisted | packages/ai/src/models.ts:801-827 | what a `createProvider` provider shows is empty or a catalog the store held at the shown index, in this process or from an earlier one, as written or restricted to the provider |
| ModelCatalogSafety.EarlierSnapshotIsShown | packages/ai/src/models.ts:801-815 | a snapshot that an earlier process persisted is shown, restricted to its provider, once the cached phase of the first refresh has restored it |
| ModelCatalogProgress.FetchedIsShown | packages/ai/src/models.ts:818-825 | from every reachable state, a live fetch of a `createProvider` provider with nothing else of it open persists exactly the fetched models as the newest store entry, after all earlier ones, and shows exactly them |
| ModelCatalogProgress.RefreshShowsFetched | packages/ai/src/models.ts:397-418 | from every reachable state, a whole online refresh, from its begin through the cached phase, the credential and the network phase, ends with the fetched models shown and persisted |
| ModelCatalogProgress.PhaseRestores | packages/ai/src/models.ts:801-817 | either phase shows what the store holds, restricted to the provider, or leaves memory as it is when the store holds nothing, and never writes |
| ModelCatalogProgress.OfflineStaysOffline | packages/ai/src/models.ts:410-417 | no refresh that may not use the network, or whose credential could not be read, gets past its cached phase |
| ModelCatalogProgress.FailedFetchKeepsAll | packages/ai/src/models.ts:818-820 | a failed fetch ends its refresh and changes nothing else |
| ModelCatalogProgress.RestrictKeepsOwn | packages/ai/src/models.ts:804-806 | restoring keeps exactly the models of the provider, in order |
| ModelCatalogEffects.StoppedStaysStopped | packages/ai/src/models.ts:320-336 | once its signal has aborted a refresh stays aborted, whatever happens later |
| ModelCatalogEffects.StoppedIsSilent | packages/ai/src/models.ts:345-357 | and nothing that happens later changes a catalog on its behalf |
| ModelCatalogEffects.ReplacedRefreshStops | packages/ai/src/models.ts:269-284 | a running refresh is aborted when its provider is refreshed again, replaced, deleted or cleared |
| ModelCatalogEffects.AbortStopsOne | packages/ai/src/models.ts:400-400 | the caller's abort stops its own refresh and changes nothing else |
| ModelCatalogEffects.OthersGoOn | packages/ai/src/models.ts:320-329 | what replaces one provider leaves the refreshes and generations of all others alone |
| ModelCatalogEffects.BegunIsLive | packages/ai/src/models.ts:331-336 | a refresh that begins runs for the registered provider, with the newest generation and its own registered, unaborted controller |
| ModelCatalogEffects.ProvidersFollow | packages/ai/src/models.ts:269-284 | which providers are registered after setting, deleting and clearing |
| ModelCatalogEffects.ReplacingKeepsCatalogs | packages/ai/src/models.ts:269-336 | beginning a refresh, setting, deleting and clearing providers touch neither the store nor a shown catalog |
| ModelCatalogEffects.ReturnReleases | packages/ai/src/models.ts:431-435 | a refresh that is over releases its own controller and no other |
| ModelCatalogEffects.CredentialIsRead | packages/ai/src/models.ts:402-412 | an unreadable credential is remembered and does not keep the cached phase from running |
| ModelCatalogEffects.ErrorsEnd | packages/ai/src/models.ts:374-417 | a failed store read or an unresolved credential ends the refresh |
| ModelCatalogEffects.SettledTailIsCleaned | packages/ai/src/models.ts:359-363 | once everything of a provider has settled, the cleanup leaves no chain of it behind |
| ModelCatalogEffects.CustomPhaseIsOver | packages/ai/src/models.ts:411-417 | after a custom provider's cached phase an online, unaborted refresh with a readable credential goes on, any other ends |
| ModelCatalogEffects.NothingToRestore | packages/ai/src/models.ts:803-817 | without a stored snapshot the network phase fetches and the cached one is over |
| ModelCatalogEffects.RestoreIsOver | packages/ai/src/models.ts:807-817 | where a refresh goes when its restoring publication was published, refused or failed, or its signal aborted |
| ModelCatalogEffects.PersistIsOver | packages/ai/src/models.ts:820-826 | a refresh ends with its persisting publication, whatever became of that |
| ModelCatalogEffects.CustomIsQueued | packages/ai/src/models.ts:338-364 | a custom provider's publication is queued behind everything of that provider, unchanged |
| ModelCatalogEffects.RefusedDoesNothing | packages/ai/src/models.ts:347-355 | a publication of a superseded or aborted refresh changes neither store nor memory at either check |
| ModelCatalogEffects.KeptIsShown | packages/ai/src/models.ts:349-357 | a publication without a store effect shows its models at once, if it updates anything, and only to its own provider object |
| ModelCatalogEffects.WriteLandsFirst | packages/ai/src/models.ts:349-353 | a write or delete becomes the newest store entry before anything is shown |
| ModelCatalogEffects.WrittenIsShown | packages/ai/src/models.ts:355-357 | and is shown when the store call returns |
| ModelCatalogEffects.FailedWriteShowsNothing | packages/ai/src/models.ts:349-353 | a failed store call shows nothing |
| ModelCatalogSafety.ChainNeverBlocks | packages/ai/src/models.ts:344-365 | every open publication has an open one before it in its chain (or itself) that is not blocked, so a chain can always go on |
| ModelCatalogSafety.StepKeepsInv | packages/ai/src/models.ts:320-436 | every action of the protocol keeps the inductive invariant behind the results above |
| ModelsRuntime.ModelsImpl.SupersedeProviderRefresh | packages/ai/src/models.ts:320-329 | the new generation is the old one plus one, exactly the registered refresh of that id is superseded, nothing else changes |
| ModelsRuntime.ModelsImpl.BeginProviderRefresh | packages/ai/src/models.ts:331-336 | is the protocol's begin action on the object's fields and keeps the invariant |
| ModelsRuntime.ModelsImpl.SetProvider | packages/ai/src/models.ts:269-272 | is the protocol's set action and keeps the invariant |
| ModelsRuntime.ModelsImpl.DeleteProvider | packages/ai/src/models.ts:274-277 | is the protocol's delete action and keeps the invariant |
| ModelsRuntime.ModelsImpl.ClearProviders | packages/ai/src/models.ts:279-284 | the loop over ids, in any order, is the protocol's one-step clear |
| ModelsRuntime.ModelsImpl.PublishProviderModels | packages/ai/src/models.ts:338-364 | appends one waiting publication behind the chain's tail; the invariant holds if the publication is one its provider may make |
| ModelsRuntime.ModelsImpl.StartPublication | packages/ai/src/models.ts:346-353 | from the settled predecessor to the store call or the end is the protocol's run action |
| ModelsRuntime.ModelsImpl.FinishPublication | packages/ai/src/models.ts:355-357 | from the settled store call through the second check is the protocol's return action |
| ModelsRuntime.ModelsImpl.CleanChain | packages/ai/src/models.ts:359-363 | removes a settled tail only if it is still the tail, and keeps the invariant |
| ModelsRuntime.ModelsImpl.ReleaseController | packages/ai/src/models.ts:431-435 | removes the controller only if it is still this refresh's, and keeps the invariant |
| ModelsRuntime.CurrentModels | packages/ai/src/models.ts:766-774 | looking up any id in the merged list finds the last dynamic model with it, else the first baseline one |
| EventWord.ReducerFollowsWord | packages/agent/src/agent.ts:544-582 | after every prefix of a well-formed word the reduced transcript is the starting one followed by the ended messages, a message streams exactly while its bracket is open, pending calls are running ones, and outside turns nothing streams or is pending |
| EventWord.PendingExactIffNoTwins | packages/agent/src/agent.ts:559-571 | the pending set equals the running calls throughout a word if and only if no call ends while another with its id runs |
| EventWord.TwinIsForgotten | packages/agent/src/agent.ts:559-571 | a run in which they differ: two calls of one message share an id and run together, the first ends, and the pending set no longer holds the id of the second, which still runs |
| EventWord.DistinctIdsKeepPendingExact | packages/agent/src/agent.ts:559-571 | words whose turns start distinct ids keep the pending set equal to the started, not ended calls |
| EventWord.WordStaysQuiet | packages/agent/src/agent-loop.ts:172-277 | no well-formed word has an open message or running tool between turns |
| EventWord.ErrorIsLastReported | packages/agent/src/agent.ts:573-577 | the error message is the one of the last ended turn that reports any, or the starting one |
| EventWord.AgentEndCloses | packages/agent/src/agent.ts:579-581 | at `agent_end` nothing streams any more, and nothing else of the state changes |
| EventOrder.EveryEventInPlace | packages/agent/src/agent-loop.ts:157-277 | in a well-formed word turns do not nest, messages and tool events lie within turns and apart from each other, calls are updated and ended only while they run, a turn ends with nothing open, and `agent_end` is last and carries all ended messages |
| EventOrder.TurnEndSays | packages/agent/src/agent-loop.ts:194-226 | a `turn_end` follows, in its turn, its assistant message and exactly its results, and those carry the ids of the calls the turn started, in order |
| EventOrder.MessageGoesOn | packages/agent/src/agent-loop.ts:319-363 | a message is updated or ended only after a start in its role with nothing but updates since |
| ToolExecution.CallEventsShape | packages/agent/src/tool-execution.ts:131-172 | a call's events are one start, its updates accepted before the tool settled, one end with its outcome, in that order |
| ToolExecution.ImmediateOutcome | packages/agent/src/tool-execution.ts:61-129 | a call that is not prepared runs no tool, ends in error, and carries a terminate flag only from a blocking hook that got that far |
| ToolExecution.ObstacleOutcome | packages/agent/src/tool-execution.ts:68-128 | which error a call ends in when its tool is unknown, its arguments are invalid, a hook throws or blocks, or the signal is aborted, in this order of precedence |
| ToolExecution.RunOutcome | packages/agent/src/tool-execution.ts:131-219 | a call without such an obstacle ends in its tool's result or error, field by field as far as the hook after it overrides |
| ToolExecution.ResultSays | packages/agent/src/tool-execution.ts:228-242 | the end event of a call and its result message carry its id, name and the outcome's fields |
| AgentTypes.CallsOfParts | packages/agent/src/agent-loop.ts:420-420 | the calls of a message are its tool-call blocks, in order |
| LiveState.PendingMessageQueue.Enqueue | packages/agent/src/agent.ts:133-135 | appends one message and changes nothing else of the queue or its history |
| LiveState.PendingMessageQueue.Drain | packages/agent/src/agent.ts:141-154 | hands out all messages, or in one-at-a-time mode the first if there is one, and keeps the rest in order; nothing taken means nothing changed |
| LiveState.PendingMessageQueue.Clear | packages/agent/src/agent.ts:156-158 | drops exactly what is still queued and records it as dropped; what was handed out stays the account of the departures |
| LiveState.AgentStateCell.ProcessEvents | packages/agent/src/agent.ts:544-582 | the fields after an event are the reducer's result over the whole word, and the word grew by that event |
| LiveState.AgentStateCell.BeginRun | packages/agent/src/agent.ts:491-500 | a run starts streaming with no message open, the transcript untouched |
| LiveState.AgentStateCell.FinishRun | packages/agent/src/agent.ts:529-535 | resets every run-owned field whatever the word was, and nothing else |
| ToolBatch.BatchesAgree | packages/agent/src/agent-loop.ts:437-558 | two executions of the same calls with the same scripts have the same ordered results, the same flag, and the same events of each call |
| ToolBatch.CutIsUnique | packages/agent/src/agent-loop.ts:482-484 | the scripts determine how many calls a batch handles before an abort breaks it |
| ToolBatch.ExecutePrepared | packages/agent/src/tool-execution.ts:131-172 | emits exactly the updates before the tool settled, however often it calls back later, and returns its result or error |
| ToolBatch.ExecuteOne | packages/agent/src/agent-loop.ts:448-476 | one call adds its own start, updates and end and no event of another call, and leaves nothing running |
| ToolBatch.ExecuteSequential | packages/agent/src/agent-loop.ts:437-491 | handles calls up to the first one after which the signal is aborted, strictly one after the other: the emitted events are exactly each call's events followed by its result message, so the log's tags never decrease; results, flag, per-call events and word are those of the handled calls in source order, and whatever the ids no call ends while another of its id runs |
| ToolBatch.FailToolCalls | packages/agent/src/agent-loop.ts:383-408 | every call of a truncated message starts and ends with the truncation error, spelled out field by field, none runs, and the batch does not terminate the run |
| ParallelBatch.RunStep | packages/agent/src/agent-loop.ts:526-538 | whichever call the scheduler picks, its step keeps every call's progress and the running multiset, and uses up work |
| ParallelBatch.RunAll | packages/agent/src/agent-loop.ts:544-546 | any schedule ends with all outcomes in source order and nothing running |
| ParallelBatch.ExecuteParallel | packages/agent/src/agent-loop.ts:493-558 | for every completion schedule the same contract as the sequential method; all calls start before any update, result message or later end, except the ends of calls that never ran, and with distinct call ids no call ends while another of its id runs |
| ParallelBatch.UnfinishedOnce | packages/agent/src/agent-loop.ts:505-546 | with distinct call ids no id runs twice at any moment of any schedule |
| ParallelBatch.CompareModes | packages/agent/src/agent-loop.ts:437-558 | run side by side on the same scripts, both modes give equal results, flag, word state and per-call event sequences |
| ParallelBatch.ExecuteToolCalls | packages/agent/src/agent-loop.ts:413-428 | strictly one after the other if so configured or if any call's tool is found and sequential, else all starts first; results, flag and per-call events do not depend on the mode; in sequence or with distinct ids no call ends while another of its id runs |
| AgentLoop.StreamAssistantResponse | packages/agent/src/agent-loop.ts:283-374 | emits exactly the starts, updates and end its stream calls for; the context gains exactly the final message, and the bracket is well formed, if and only if the stream sends at most one start, despite partial messages being overwritten in place |
| AgentLoop.OrderlyStream | packages/agent/src/agent-loop.ts:319-374 | for a stream that starts first and once, those events are the start, one update per later event up to the terminal one, and the end, each with that event's message |
| AgentLoop.SilentStream | packages/agent/src/agent-loop.ts:348-374 | a stream that never starts gives only the start and end of its final message |
| TurnGrammar.ResultsFollowCalls | packages/agent/src/agent-loop.ts:194-224 | a turn's result ids are, in source order, a prefix of its message's tool calls: none if it failed, all unless the signal was aborted |
| TurnGrammar.ExecutedResults | packages/agent/src/agent-loop.ts:204-224 | in a turn whose message neither failed nor was cut off, the `k`th result is the outcome of the `k`th call, and the turn continues unless every handled call asks to terminate |
| TurnGrammar.TruncatedTurn | packages/agent/src/agent-loop.ts:383-408 | a turn whose message was cut off has one truncation error per call and continues |
| TurnGrammar.FailureStops | packages/agent/src/agent-loop.ts:198-202 | a message that stopped with an error or was aborted is the last turn's and has no results; any other with calls has at least one |
| TurnGrammar.TurnComesFrom | packages/agent/src/agent-loop.ts:175-262 | every turn after the first comes from a continuing batch or injected messages, and none follows the stop hook |
| TurnGrammar.EndSays | packages/agent/src/agent-loop.ts:198-274 | a run ends early exactly by a failed message or the stop hook, and otherwise only when its last batch does not continue |
| TurnGrammar.TurnBound | packages/agent/src/agent-loop.ts:172-274 | a run has at most one turn more than non-terminating batches (the last turn's not counted) plus injected messages |
| TurnGrammar.RunBound | packages/agent/src/agent-loop.ts:172-274 | the same bound with the messages taken from the two queues |
| TurnGrammar.FinishTurnSays | packages/agent/src/agent-loop.ts:184-224 | a finished turn adds its injected messages, its assistant message and its results to the new messages, in that order |
| TurnGrammar.FinishTurnKeeps | packages/agent/src/agent-loop.ts:183-192 | injecting moves pending messages into the transcript without changing what each queue's account adds up to |
| QueueSteps.StepsKeepMessages | packages/agent/src/agent.ts:125-159 | whatever the user and the loop do, the messages that left a queue followed by those still in it are the earlier ones followed by those sent since, in order; without a clear of that queue all that left were handed out |
| QueueSteps.StepEffects | packages/agent/src/agent.ts:125-159 | what each single call or poll does to each queue |
| QueueSteps.PollTakes | packages/agent/src/agent.ts:141-154 | a poll takes everything, or only the oldest message, as the mode says |
| QueueSteps.FollowedMore | packages/agent/src/agent-loop.ts:172-274 | further steps after a conserving history are again one, with the messages of both |
| QueueSteps.RecordedSteeringPoll | packages/agent/src/agent-loop.ts:166-261 | the steps of a run up to a steering poll are those up to its turn, the calls made since, and the poll; for the first poll those of the run's start |
| QueueSteps.RecordedFollowUpPoll | packages/agent/src/agent-loop.ts:264-270 | a follow-up poll adds the calls made since the steering poll before it, and itself |
| AgentRun.TranscriptWhenQuiet | packages/agent/src/agent.ts:544-557 | whenever nothing is open or running, the agent's messages are the run's starting ones followed by all ended messages, and nothing streams or is pending |
| AgentRun.Inject | packages/agent/src/agent-loop.ts:183-192 | emits exactly one start and end per pending message, in order, and adds each once to context and new messages alike |
| AgentRun.RunBatch | packages/agent/src/agent-loop.ts:204-224 | the batch of a turn, truncated or executed, gives exactly the results and continuation its script determines, and ends no twin if the calls' ids differ or they do not run together |
| AgentRun.RunTurn | packages/agent/src/agent-loop.ts:177-226 | at `turn_end` the ended messages, the new messages, the agent's transcript and the context have all grown by the same injected messages, assistant message and results |
| AgentRun.NextTurn | packages/agent/src/agent-loop.ts:177-259 | a turn and `prepareNextTurn` keep the transcripts placed: the context is the starting one, or the last replacement, followed by everything said since |
| AgentRun.Deliver | packages/agent/src/agent.ts:265-306 | the calls change both queues exactly as their steps say, none lost or handed out |
| AgentRun.GetSteeringMessages | packages/agent/src/agent.ts:475-481 | a skipped poll changes nothing, any other is one drain; what it took and what stays are what was queued |
| AgentRun.PollSteering | packages/agent/src/agent-loop.ts:261 | a poll takes what the mode allows of everything queued so far into pending and leaves the rest queued, in order; an empty unskipped poll means an empty queue, a skipped one takes nothing, and the run's steps grow by the calls and the poll |
| AgentRun.PollFollowUp | packages/agent/src/agent-loop.ts:264-274 | follow-ups become pending, the rest stay queued, and another turn is due; no follow-ups means an empty queue and the end; the run's steps grow by the calls and the poll |
| AgentRun.RunTurns | packages/agent/src/agent-loop.ts:175-262 | the inner loop leaves with nothing to do only after an empty steering queue and a non-continuing turn, and ends early only after a failed message or the stop hook; the queues are left exactly as the run's steps say, with no message lost |
| AgentRun.RunLoop | packages/agent/src/agent-loop.ts:157-277 | complete or cut, a run's word is well formed and over exactly if complete, its turns follow their scripts, and a message with stop reason "error" or "aborted" has no results and no turn after it, while any other with calls has results; transcripts agree, the context being the last replacement and what was said since; what each queue handed out is injected, then pending, and together with what is still queued it is what was there and what the user queued, in order, but for clears; no call ends beside a running twin if each turn's ids differ or its batch is not parallel; a complete run leaves nothing pending, and no follow-up queued unless it ended early |
| Agents.RunAgentLoop | packages/agent/src/agent-loop.ts:97-120 | the same for a run with prompts, from an empty word, with the context starting at the given messages: queues left as the run's steps say, no message lost, no twin ended where ids differ |
| Agents.RunAgentLoopContinue | packages/agent/src/agent-loop.ts:122-145 | refuses exactly an empty context or one ending in an assistant message, emitting nothing and leaving both queues as they are; otherwise the same without prompts |
| Agents.Agent.Execute | packages/agent/src/agent.ts:409-443 | the executor grows the transcript by the run's new messages and each queue's handed-out messages by what the run took, and loses no queued message |
| Agents.Agent.RunWithLifecycle | packages/agent/src/agent.ts:486-535 | streaming exactly while a run is active; across all runs the transcript is the initial one and everything said, and each queue's handed-out messages are, in order, those of the runs; the queues are left as the run's steps say, no message lost |
| Agents.Agent.Prompt | packages/agent/src/agent.ts:347-358 | refused exactly while a run is active, touching nothing; otherwise adds one run with the given prompts to that account, and every message queued during it was handed out, is still queued, in order, or was cleared |
| Agents.Agent.Continue | packages/agent/src/agent.ts:361-388 | refused in exactly three cases, with transcript and queues untouched; after an assistant message the prompts come from steering before follow-ups, what is not taken stays queued, and a run from steering injects nothing into its first turn |
| Agents.Agent.Queue | packages/agent/src/agent.ts:283-306 | queueing and clearing between or during runs change the queues exactly as their steps say and keep the whole account |
| Agents.Agent.Reset | packages/agent/src/agent.ts:333-345 | refused exactly while a run is active; otherwise transcript and run state are empty and both queues cleared |
| Agents.ReportedPendingExact | packages/agent/src/agent.ts:559-571 | the pending set of any listener's state that was idle at the start equals the running calls throughout a run whose turns have distinct call ids or no parallel batch |
| RpcParser.JsonlParser.Push | packages/pi-gui-adapter/src/rpc-parser.ts:34-37 | the buffer is the open segment of everything fed and the deliveries are the lines its closed segments make |
| RpcParser.JsonlParser.Drain | packages/pi-gui-adapter/src/rpc-parser.ts:51-61 | cutting lines off the buffer one by one delivers the closed segments of the whole text |
| RpcParser.JsonlParser.Flush | packages/pi-gui-adapter/src/rpc-parser.ts:43-49 | all lines of the text fed have been delivered, a last one without LF included |
| RpcParser.FeedAll | packages/pi-gui-adapter/src/rpc-parser.ts:34-74 | for every way of cutting a text into chunks the deliveries are those of its lines: cut at LF, one trailing CR dropped, empty lines skipped |
| RpcParser.RoundTrip | packages/pi-gui-adapter/src/rpc-parser.ts:51-74 | records come back unchanged if and only if each is non-empty, free of LF and does not end in CR (what `JSON.stringify` writes without indentation qualifies) |
| RpcParser.DecodeChunks | packages/pi-gui-adapter/src/rpc-parser.ts:34-74 | such records come back unchanged, in order, under any chunking of their encoding |
| RpcParser.CrLfRoundTrip | packages/pi-gui-adapter/src/rpc-parser.ts:63-74 | non-empty records without LF, sent with CR LF line ends, come back unchanged |
| RpcParser.UnterminatedLine | packages/pi-gui-adapter/src/rpc-parser.ts:43-49 | after framable records a last one without a line end is still a line of its own |
| RpcClient.SettlesOnceLegitimately | packages/pi-gui-adapter/src/rpc-client.ts:101-119 | a request settles at most once, only with a response carrying its id, its own timeout, or a close reason |
| RpcClient.RequestIsPending | packages/pi-gui-adapter/src/rpc-client.ts:101-119 | a request of an open client is pending under its id, in place of any earlier one with that id, unsettled, and has a timer exactly if it asks for one |
| RpcClient.ResponseSettlesItsRequest | packages/pi-gui-adapter/src/rpc-client.ts:175-190 | a response resolves the request pending under its id with exactly that response, disarms its timer and touches no other request |
| RpcClient.TimerTimesOut | packages/pi-gui-adapter/src/rpc-client.ts:109-115 | an armed timer times its request out, removes its id and touches no other request |
| RpcClient.CloseRejectsPending | packages/pi-gui-adapter/src/rpc-client.ts:142-153 | a close rejects every pending request with its reason and touches no other |
| RpcClient.OutcomeIsFinalFrom | packages/pi-gui-adapter/src/rpc-client.ts:142-195 | once settled, nothing that happens later changes a request's outcome |
| RpcClient.ExactIffNoReuse | packages/pi-gui-adapter/src/rpc-client.ts:101-119 | the pending map holds exactly the issued unsettled requests throughout a run if and only if no id is issued while pending |
| RpcClient.ReuseOrphans | packages/pi-gui-adapter/src/rpc-client.ts:116 | an id issued twice leaves an unsettled request that is not pending |
| RpcClient.ClosedStaysEmpty | packages/pi-gui-adapter/src/rpc-client.ts:142-153 | after `close` the pending map stays empty, no timer is armed again, and every later request is rejected at once |
| RpcClient.CloseLeavesOrphanTimers | packages/pi-gui-adapter/src/rpc-client.ts:142-153 | the timers `close` leaves armed are exactly those of timed unsettled requests whose id another request took over |
| RpcClient.ClosedIsSettled | packages/pi-gui-adapter/src/rpc-client.ts:142-153 | if no id is issued while pending, a closed client has settled every request once and has no timer armed, at every later moment too |
| RpcClient.OrphanTimerOutlivesClose | packages/pi-gui-adapter/src/rpc-client.ts:116-153 | an id issued twice leaves the first request's timer armed and the request unsettled after `close` |
| RpcClient.StrayResponseChangesNothing | packages/pi-gui-adapter/src/rpc-client.ts:175-182 | an unknown, duplicate or late response settles nothing and only reports a protocol error |
| RpcClient.Client.Request | packages/pi-gui-adapter/src/rpc-client.ts:101-119 | is the protocol's request action on the object's fields |
| RpcClient.Client.HandleResponse | packages/pi-gui-adapter/src/rpc-client.ts:175-195 | is the protocol's receive action |
| RpcClient.Client.FireTimer | packages/pi-gui-adapter/src/rpc-client.ts:109-115 | is the protocol's timer action |
| RpcClient.Client.Close | packages/pi-gui-adapter/src/rpc-client.ts:142-153 | the loop over pending requests, in any order, is the protocol's one-step close |
| StateCache.CacheNeverGoesBack | packages/pi-gui-adapter/src/pi-backend.ts:547-575 | the backend time of the cached streaming flag never decreases and applied request ids strictly increase, whatever the delay of the continuations |
| StateCache.CacheIsTrue | packages/pi-gui-adapter/src/pi-backend.ts:547-625 | the cached flag is the backend's own at that time, and no transition that has arrived is newer |
| StateCache.CacheCatchesUp | packages/pi-gui-adapter/src/pi-backend.ts:611-625 | once no lifecycle line is on its way, a running client's flag is the backend's current one |
| StateCache.FreshAnswerIsApplied | packages/pi-gui-adapter/src/pi-backend.ts:565-570 | in every reachable state, the continuation of an answer with the current revision and an id above every applied one makes the cached state that answer and records its id |
| StateCache.OtherAnswerIsDropped | packages/pi-gui-adapter/src/pi-backend.ts:555-567 | and any other changes nothing |
| StateCache.FirstRefreshIsApplied | packages/pi-gui-adapter/src/pi-backend.ts:547-575 | the first refresh of an idle backend is applied |
| StateCache.LineSetsFlag | packages/pi-gui-adapter/src/pi-backend.ts:611-625 | a lifecycle line sets the cached flag, keeps the rest of the cached state and raises the revision |
| StateCache.FailedRequestIsNeverApplied | packages/pi-gui-adapter/src/pi-backend.ts:555-575 | a request that failed, or was pending at a stop, is never applied, whatever arrives later |
| StateCache.StopSilences | packages/pi-gui-adapter/src/pi-backend.ts:183-203 | after a stop no delayed continuation changes the cache |
| StateCache.DelayedAnswerIsStale | packages/pi-gui-adapter/src/pi-backend.ts:562-567 | a run in which only the revision check keeps an older answer with a fresh id from being applied |
| StateCache.PiBackend.BeginRefreshState | packages/pi-gui-adapter/src/pi-backend.ts:547-553 | is the protocol's ask action: a fresh id is registered with the captured revision, or nothing happens without a client |
| StateCache.PiBackend.EndRefreshState | packages/pi-gui-adapter/src/pi-backend.ts:555-575 | applies and reports an arrived answer exactly if there is one, its revision is current and its id above every applied one; otherwise nothing changes; either way it is the protocol's continuation |
| StateCache.PiBackend.ApplyEventToCache | packages/pi-gui-adapter/src/pi-backend.ts:611-625 | is the arrival of the next lifecycle line: the cached flag follows it, and a stop asks for the state with the new revision |
| StateCache.PiBackend.BeginStop | packages/pi-gui-adapter/src/pi-backend.ts:183-190 | is the protocol's stop action: captured revisions are behind for good and the client is gone |
| StateCache.PiBackend.EndStop | packages/pi-gui-adapter/src/pi-backend.ts:195-198 | is the protocol's end of a stop |
| StateCache.PiBackend.Environment | packages/pi-gui-adapter/src/pi-backend.ts:555-575 | whatever the backend, the channels and failing requests do keeps the object valid |
| StateCache.ObjectCacheIsTrue | packages/pi-gui-adapter/src/pi-backend.ts:547-625 | the cached flag of every valid object is the backend's at its time, never behind a transition that has arrived, and the current one once no lifecycle line is on its way |
| StackSizes.DistributeRound | packages/tui/src/components/stack.ts:102-132 | a round gives each entry exactly its weight's share of what earlier entries left, at least a cell and at most its room, keeps all bounds, accounts for every cell and uses up at least one |
| StackSizes.Distribute | packages/tui/src/components/stack.ts:95-133 | the sizes are those of round after round until the whole amount is distributed or no entry can take (give) more; they move one way only and entries without weight not at all |
| StackSizes.AllocateStackSizes | packages/tui/src/components/stack.ts:135-154 | one size per entry within its bounds, exactly its natural size grown or shrunk by the rounds of what is missing or too much; together exactly the available cells, unless all growing entries are at their maximum or all shrinking ones at their minimum |
| StackSizes.AllocationIsUnique | packages/tui/src/components/stack.ts:95-154 | that determines every size: there is only one allocation |
| StackSizes.NaturalIs | packages/tui/src/components/stack.ts:89-93 | a natural size is the basis or else the measured size, as far as the bounds allow |
| ScrollViews.ScrollView.UpdateLayout | packages/tui/src/components/scroll-view.ts:163-172 | the position stays within the new layout: at the end when following, else unchanged if it can be; a view whose content fits stops showing its transient scrollbar |
| ScrollViews.ScrollView.ScrollBy | packages/tui/src/components/scroll-view.ts:124-138 | moved plus left-over lines are the requested ones, lines are left over only at an end, and the view follows the end exactly if it may and is there |
| ScrollViews.ScrollView.ScrollTo | packages/tui/src/components/scroll-view.ts:113-122 | ends at the clamped position; a view that moved follows the end exactly if it may and is there, any other as before |
| ScrollViews.ThumbInTrack | packages/tui/src/layout.ts:266-291 | for all positive tracks and all positions the thumb is at least one cell, inside the track, at the top at zero and exactly at the bottom at the maximum |
| ScrollViews.ThumbMonotone | packages/tui/src/layout.ts:277-279 | the thumb never moves up when scrolling down |
| ScrollViews.ThumbHeightBounds | packages/tui/src/layout.ts:272-276 | the thumb is between min(2, track) and the track, and fills the track when the content fits |
| ScrollViews.ThumbIsProportional | packages/tui/src/layout.ts:272-276 | between its bounds the thumb has within half a cell of the share of the track that the viewport has of the content |
| ScrollViews.ThumbOffsetIsProportional | packages/tui/src/layout.ts:277-279 | the offset is within half a cell of the position's share of the free track |
| ScrollViews.RoundDivIsNearest | packages/tui/src/layout.ts:275-279 | the integer rounding used is within half of the exact quotient |
| BoxTrees.IntersectIsIntersection | packages/tui/src/layout.ts:54-60 | as point sets `intersect` is intersection, and its sides are never negative |
| BoxTrees.ReclipEstablishesClips | packages/tui/src/layout.ts:95-98 | whatever the clips were, re-clipping makes every clip its parent's clip within its own rectangle |
| BoxTrees.TranslateKeepsScrolls | packages/tui/src/layout.ts:90-93 | moving a tree keeps every scroll child at its view's offset |
| BoxTrees.TranslateKeepsMeasures | packages/tui/src/layout.ts:90-93 | moving a tree keeps every view's heights those of its box and child, and its position within them |
| BoxTrees.RescrollKeeps | packages/tui/src/tui-alt-screen.ts:489-502 | views that scroll within their heights leave every clip and every measure of the tree right |
| BoxTrees.ClipIsScreenAndAncestors | packages/tui/src/layout.ts:90-98 | a point is in a box's clip iff it is on the screen and in the rectangles of the box and all its ancestors |
| BoxTrees.TranslateMovesAll | packages/tui/src/layout.ts:90-93 | moving a tree moves every box of it by just that much and changes nothing else |
| BoxTrees.ReclipMovesNone | packages/tui/src/layout.ts:95-98 | re-clipping moves and resizes no box |
| BoxTrees.PrunedSearchIsComplete | packages/tui/src/layout.ts:392-402 | the pruned search meets exactly the scroll boxes that a scan of the whole tree finds with the point in their clip, in the same order |
| BoxTrees.HitHasPath | packages/tui/src/layout.ts:392-402 | everything found is a scroll box of the tree with the point in its clip, at the reported depth |
| BoxTrees.PathHasHit | packages/tui/src/layout.ts:392-402 | and every such box is found |
| Sorting.SortByIsStableSort | packages/tui/src/layout.ts:400 | the sort orders by key, keeps every element and the order among equal keys |
| LayoutBoxes.LayoutBox.Translate | packages/tui/src/layout.ts:90-93 | in place, equals moving the tree's value; shape and ownership unchanged |
| LayoutBoxes.LayoutBox.UpdateClips | packages/tui/src/layout.ts:95-98 | in place, equals re-clipping the tree's value |
| LayoutBoxes.LayoutBox.AddChild | packages/tui/src/layout.ts:183-188 | appends a separate tree as last child, sets its parent, and changes no other box |
| Layout.LayoutComponent | packages/tui/src/layout.ts:100-241 | for every component tree, nested scroll views included: every clip is its parent's clip within its own rectangle, every scroll child sits at its view's y minus the updated scrollTop, every view's heights are those of its boxes and its position is within them, the tree has the component tree's shape with the children of every nested stack in line, the gap apart and aligned, and the root box has the requested place and size |
| Layout.LayoutScroll | packages/tui/src/layout.ts:130-162 | laying out at the old position, updating the view, translating and re-clipping gives such a tree, with the view's heights those of its boxes, the child as wide as the scrollbar leaves it, and as high as its child when no height is given |
| Layout.LayoutVStack | packages/tui/src/layout.ts:166-192 | one child per visible entry, the `k`th of its allocated height at the sum of the earlier heights and gaps; with no height given, the stack is as high as these and its gaps |
| Layout.LayoutHStack | packages/tui/src/layout.ts:194-240 | one child per visible entry in a row of allocated widths, each as high and with the margins its alignment promises inside the stack's rows; with no height given, no entry measures higher than the stack and some entry just as high (0 rows without entries); columnless entries get an empty box |
| Layout.HighestIs | packages/tui/src/layout.ts:201-204 | the open height is above no measured height and equal to one, or 0 without entries |
| Layout.VisibleOfParts | packages/tui/src/components/stack.ts:82-87 | the entries laid out are the visible ones, in order |
| Layout.IntrinsicHeightIs | packages/tui/src/layout.ts:167-169 | a vertical stack's heights start from an entry's basis, or else its rendered height |
| Layout.IntrinsicWidthIs | packages/tui/src/layout.ts:194-196 | a horizontal stack's widths start from an entry's basis, or else its rendered width |
| Layout.LayoutFrame | packages/tui/src/layout.ts:345-364 | the root box is the screen, and its tree mirrors the root component and is laid out within the screen |
| Layout.ColumnNeighbours | packages/tui/src/layout.ts:181-190 | neighbours in a vertical stack are exactly the gap apart |
| Layout.RowNeighbours | packages/tui/src/layout.ts:213-239 | neighbours in a horizontal stack are exactly the gap apart |
| Layout.ReclipKeepsShape | packages/tui/src/layout.ts:95-98 | re-clipping a tree keeps it a mirror of its component tree |
| Frames.GetScrollViewsAt | packages/tui/src/layout.ts:392-402 | in a frame, scrolled since its layout or not, the search on the boxes themselves returns the stably sorted result of scanning the whole tree for scroll boxes with the point in their clip |
| Frames.DeepestFirstOrder | packages/tui/src/layout.ts:400 | in that result no deeper view follows a shallower one, none is lost, and views of one depth keep the scan's order |
| Frames.GetScrollbarGeometry | packages/tui/src/layout.ts:266-291 | for every box of a laid-out frame, also after scrolling: a scrollbar exactly when the box shows one in a column its clip contains, with the thumb inside the box and at its ends at the extreme positions |
| Frames.GetScrollViewBox | packages/tui/src/layout.ts:380-390 | finds a box of the tree that has the view, and none only if no box has it |
| Frames.GetViewScrollbar | packages/tui/src/tui-alt-screen.ts:564-567 | the scrollbar of a view in a frame is that of a box that has it, wherever in the tree |
| Frames.RoutedMore | packages/tui/src/tui-alt-screen.ts:492-496 | one more view's turn keeps the account of a wheel event: moves and left-over lines add up, and whoever passed lines on is at its limit |
| Frames.RouteToFound | packages/tui/src/tui-alt-screen.ts:489-496 | the views found take the lines in order until none is left or a view keeps them; what they moved and what is left are the lines, a view that passed lines on is at its limit and chains, and no other view moved |
| Frames.RouteWheel | packages/tui/src/tui-alt-screen.ts:489-502 | the same for the views at the event's point, deepest first, then the primary view unless it had its turn; afterwards the frame is searchable and measured as before |
| Fuzzy.MatchQuery | packages/tui/src/fuzzy.ts:16-68 | the loop with its early exits computes the greedy scan over the whole text |
| Fuzzy.GreedyDecides | packages/tui/src/fuzzy.ts:30-61 | the greedy scan matches if and only if the query is a subsequence of the text |
| Fuzzy.GreedyIsEarliest | packages/tui/src/fuzzy.ts:30-57 | no embedding of the query places its next character before the scan's position |
| Fuzzy.ScoreBound | packages/tui/src/fuzzy.ts:34-67 | a score is at least -(5n(n+1)/2 + 10n + 100) for a query of length n |
| Fuzzy.ScoreOfEarliest | packages/tui/src/fuzzy.ts:34-67 | a match's score is, in tenths of a point, that of the embedding none is earlier than: per character its position, 20 per character skipped since the last one or else -50 times its place in its run, -100 at a word's start, and -1000 for the whole text |
| Fuzzy.SwapIsWorse | packages/tui/src/fuzzy.ts:87-92 | a match by the swap costs exactly 50 tenths more |
| Fuzzy.BoundariesAre | packages/tui/src/fuzzy.ts:32-32 | words start after spaces and the signs - _ . / :, and query tokens end at spaces and slashes |
| Fuzzy.SpacesAre | packages/tui/src/fuzzy.ts:32-32 | which code points are spaces |
| Fuzzy.SwappedIsTheSwap | packages/tui/src/fuzzy.ts:75-81 | the letters/digits swap exists iff the query splits into two non-empty runs of the two kinds, and is then the only one |
| Fuzzy.FuzzyDecides | packages/tui/src/fuzzy.ts:70-92 | a text matches iff the lower-cased query or its swap is a subsequence of it |
| Fuzzy.Match | packages/tui/src/fuzzy.ts:12-93 | for any lower-casing, the primary match or else the swapped one with its penalty |
| Fuzzy.TokensAreTheWords | packages/tui/src/fuzzy.ts:104-107 | tokens are non-empty and separator-free, and together are the query without its separators |
| Fuzzy.TokensOfParts | packages/tui/src/fuzzy.ts:104-107 | a word is the first token of whatever follows it after a separator |
| Fuzzy.FuzzyFilter | packages/tui/src/fuzzy.ts:99-137 | all items without tokens; else the items every token matches, sorted stably by total score |
| Fuzzy.BestFirst | packages/tui/src/fuzzy.ts:135-136 | no item follows one with a worse score, none is lost, ties keep their original order |
| Fuzzy.SurvivorsMatch | packages/tui/src/fuzzy.ts:115-133 | an item survives if and only if it was given and every token matches its text, and its score is the sum of its tokens' scores |
| Fuzzy.TokensTogether | packages/tui/src/fuzzy.ts:117-128 | matching and score of more tokens are those of their parts, together and added up |
| Fuzzy.SurvivorsOfParts | packages/tui/src/fuzzy.ts:113-133 | filtering keeps the order in which the items were given |
| KittySequences.CsiURoundTrip | packages/tui/src/keys.ts:588-607 | a well-formed CSI u sequence is parsed into exactly the fields it encodes |
| KittySequences.FinalRoundTrip | packages/tui/src/keys.ts:609-648 | the arrow, home and end forms are parsed into their key, modifier and event, and no other final letter is |
| KittySequences.TildeRoundTrip | packages/tui/src/keys.ts:619-638 | the tilde forms of the six editing and paging keys are parsed into theirs, and no other number is |
| KittySequences.ModifyOtherKeysRoundTrip | packages/tui/src/keys.ts:696-702 | a modifyOtherKeys sequence is parsed into its modifier and code point |
| KittySequences.EventMeans | packages/tui/src/keys.ts:579-585 | 2 is a repeat, 3 a release, everything else a press, and no modifier means none |
| KittySequences.KittyIsNotModifyOtherKeys | packages/tui/src/keys.ts:587-702 | no data is both a Kitty sequence and a modifyOtherKeys sequence |
| KittySequences.KittyIsLong | packages/tui/src/keys.ts:587-651 | no Kitty sequence is as short as the two-character legacy forms |
| Keys.SymbolsAreTheSet | packages/tui/src/keys.ts:259-291 | the symbol test by ranges is membership in the set of symbol keys |
| KeyAgreement.IdentifierRoundTrip | packages/tui/src/keys.ts:776-801 | an identifier formatted from a key name and modifier is parsed back into both, unless the key is a plus |
| KeyAgreement.ParsedKeyMatches | packages/tui/src/keys.ts:820-1260 | data matches the identifier it is parsed into if and only if the key is not a plus, not an escape with modifiers, and its code point is below 65536, across lock bits, shifted letters, keypad codes and base-layout fallback |
| KeyAgreement.SmallCodesMatch | packages/tui/src/keys.ts:653-694 | with code point and base-layout key below 65536 only pluses and modified escapes fail |
| KeyAgreement.FormatSays | packages/tui/src/keys.ts:776-786 | an identifier is its modifiers in the order shift, ctrl, alt, super, each with a plus, and the name |
| KeyAgreement.SpecialKeysAreNamed | packages/tui/src/keys.ts:1227-1242 | the names of the code points without a character |
| KeyAgreement.CharactersNameThemselves | packages/tui/src/keys.ts:1243-1245 | letters, digits and symbols name themselves |
| KeyAgreement.CodeOfKey | packages/tui/src/keys.ts:1212-1225 | letters and digits, capitals with shift and keypad digits keep their own code; a code outside all tables gives way to the base layout's |
| KeyMatching.KittyMatchesExactly | packages/tui/src/keys.ts:653-694 | a Kitty sequence matches an identifier if and only if, lock keys aside, its modifiers are exactly the identifier's, its own code point, or its base layout's if its own is neither letter nor symbol, is the identifier's key, and that is not a modified escape, although legacy forms are tried first |
| KeyMatching.MatchedIsUnique | packages/tui/src/keys.ts:820-1204 | without a base-layout key, all identifiers that match have the same key and modifiers |
| KeyMatching.LegacyMeansKey | packages/tui/src/keys.ts:368-392 | a legacy sequence that is also a Kitty sequence means the same key |
| KeyMatching.LocksAreCleared | packages/tui/src/keys.ts:299-299 | caps lock and num lock are cleared and every other bit kept, modulo 2^32 |
| KeyMatching.KeypadKeysAreNamed | packages/tui/src/keys.ts:326-358 | keypad digits and signs are the characters they are printed with |
| KeyMatching.KeypadMovesAreNamed | packages/tui/src/keys.ts:326-358 | the other keypad keys are the keys of the same name |
| KeyMatching.OtherNames | packages/tui/src/keys.ts:831-879 | "esc", "return" and "clear" are names too |
| KeyMatching.FunctionNames | packages/tui/src/keys.ts:1128-1139 | so are the twelve function keys |
| KeyMatching.PrintableMatchesExactly | packages/tui/src/keys.ts:1183-1203 | a printable character matches only itself without modifiers, space its name, and a capital its letter with shift |
| KeyMatching.PlainKeysMatch | packages/tui/src/keys.ts:831-964 | escape, tab, enter, space and backspace match their names, and when line feed and backspace characters do |
| KeyMatching.PlainArrowsMatch | packages/tui/src/keys.ts:368-392 | the common sequences of arrows, home, end, f1 and shift+tab match their names |
| KeyMatching.ControlLettersMatch | packages/tui/src/keys.ts:1155-1170 | a control character matches its letter with ctrl, and behind an escape with alt unless the protocol is active |
| KeyMatching.ControlSymbolsMatch | packages/tui/src/keys.ts:749-760 | the five symbols with a control character match it with ctrl |
| KeyAgreement.PlusIsNotMatched | packages/tui/src/keys.ts:788-793 | the plus key is named by an identifier its own data does not match |
| KeyAgreement.ShiftedEscapeIsNotMatched | packages/tui/src/keys.ts:832-839 | shift+escape is named, and not matched |
| KeyAgreement.WrappedSlashIsNotMatched | packages/tui/src/keys.ts:1223-1245 | code point 65583 is named as a slash, and not matched as one |

## Left out

- Provider HTTP, OAuth, processes, files, clocks and timers' durations: results and their order come from actions, scripts and parameters; result messages carry no timestamp.
- The models store is atomic and written only by this object, so two `ModelsImpl` over one store are not covered.
- Provider and request ids, texts, tool arguments and payloads are only compared or passed on and are numbers.
- ModelsRuntime.ModelsImpl.PublishProviderModels: keeps the invariant for publications as `createProvider` makes them or by custom providers; who may publish what is part of the protocol's operation steps.
- Credential reading and resolving, and error collection in `refresh`: one step each, with an arbitrary outcome.
- Throwing hooks, listeners and message converters, and the failure path that `handleRunFailure` emits for them (packages/agent/src/agent.ts:511-527).
- A result message's `addedToolNames`, and replacing missing tool content by an empty list.
- `transformContext`, `convertToLlm`, and what `prepareNextTurn` changes besides the context.
- AgentRun.RunLoop: streams are asked to send at most one `start`, as packages/ai/src/types.ts:508-515 does; what happens otherwise is in AgentLoop.StreamAssistantResponse.
- ToolBatch.BatchesAgree: compares executions with equal scripts; when the signal is aborted during a batch, the two modes may see it at different calls, and each is then covered by its own contract.
- JSON parsing is a predicate on lines; decoding bytes to text is not modelled.
- `sendLine` failing inside `request`, and notifications other than protocol errors.
- Backend startup: the cache model starts after `waitForReady` has stored the first state; a restarted backend is a new model.
- The backend sends a lifecycle line at every transition of its streaming flag and answers `get_state` from its current state; this is assumed of the backend.
- Layout.LayoutComponent: a scroll view occurs once in a component tree; with the same view twice the first placement would be outdated by the second.
- Rendering, painting, image cropping, a leaf's line offset for the cursor, the render cache, and which scroll view is the primary one (a parameter of Frames.RouteWheel).
- Widths and heights are whole numbers, as everywhere below the root of a layout; floating-point rounding of the scrollbar quotients and of the fuzzy score's tenths is not modelled.
- Scroll bar hide timers, hovering and dragging, and `scrollToStart` and `scrollToEnd`, which only add easy cases.
- `parseKey` on xterm modifyOtherKeys and legacy sequences, with which `matchesKey` does not always agree, what `matchesKey` rejects among these beyond printable characters, and the last-event-type variable that parsing sets.
- Numbers in key sequences are exact integers of any size; JavaScript rounds those above 2^53.
- Lower-casing is a parameter of the fuzzy matcher and ASCII in key identifiers.
