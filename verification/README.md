# Verification of the agent runtime

A Dafny model of the parts of this repository whose correctness is hard to see from any one
function: the agent loop with its stateful agent, the proxy stream decoder, path completion in
the editor, the transcript packer, and the disk cache. `dafny verify dfyconfig.toml` checks
everything.

## The agent runtime

One run of the loop (`packages/agent/src/agent-loop.ts`) is seen as a sequence of *steps*:
events handed to listeners, LLM calls, tool executions, polls of the two queues, context
overrides, and what the application does to the agent in between. What the outside world
contributes to a turn is one `TurnInput`: the model's stream, the tools and hooks, the order in
which concurrent tool calls move once they are launched, the answers of `prepareNextTurn` and
`shouldStopAfterTurn`, and the user's actions before each poll.

| file | what it holds |
|---|---|
| `Messages.dfy` | messages, events, queues, steps; the reducer that folds events into the agent's state |
| `Tools.dfy`, `ToolBatch.dfy` | what becomes of one tool call; the steps of a sequential and of a parallel batch |
| `LoopSpec.dfy` | the steps of a whole run as a function of the world's answers |
| `Agent.dfy` | the classes `PendingMessageQueue` and `Agent` |
| `AgentLoop.dfy` | the loop as a class that mutates its context and emits into the agent; proved to take exactly the specified steps, or a prefix of them if the world throws |
| `AgentRuns.dfy` | `prompt`, `continue` and the life of one run around the loop, failures included |
| `Watcher.dfy` | an observer that sees only steps and knows the rules of a run; it shares no definition with the loop |
| `BatchSafety.dfy`, `LoopSafety.dfy` | every run keeps every rule of the observer |
| `RunInvariants.dfy`, `RunGuarantees.dfy` | what the rules add up to, stated over the steps alone |
| `BatchTheorems.dfy` | schedules are exactly the interleavings of the launched calls; order and results of parallel batches |
| `ToolOutcomes.dfy` | what a call ends with and what is told of it, in terms of the tool and the hooks themselves |
| `ScriptHeard.dfy` | the world's answers reach the run, all of them and in their order |
| `ExecutorRefinement.dfy` | executor and schedule are invisible except in the tool events |
| `QueueConservation.dfy` | no queued message is lost, duplicated or reordered on its way out of a queue |
| `QueueLoss.dfy` | what a run that throws can lose of the messages it took |
| `Termination.dfy` | the nested loops stop exactly when the work that keeps them going is bounded |
| `Lifecycle.dfy` | all interleavings of calls on an agent, runs that throw, and calls that outlive their run |

The contract of the source is the premise of the theorems about normal runs: an idle agent, and
streams that announce their partial message at most once (`LoopSafety.StreamSafe` shows that this
is exactly what a stream must keep). Tools and hooks are arbitrary functions. Runs that break a
"must not throw" contract are covered separately: the world may throw after any number of steps,
the last one included.

## The other cores

`Framing.dfy`, `Proxy.dfy` and `ProxyRoundTrip.dfy` model the proxy decoder: a reader that cuts
text into lines and a fold that rebuilds a message from stripped events. `JsText.dfy`,
`Autocomplete.dfy`, `Completion.dfy` and `Suggestion.dfy` model prefix extraction, splicing, and
the choice of the prefix that is completed in the editor.
`TranscriptPacker.dfy` models the split loop of the transcript script. `DiskCache.dfy` models the
cache decorator, first one call at a time and then as threads whose locked sections interleave.

Where the code falls short of what one would like to promise, the exact condition is proved, and
a lemma gives an input that fails:

- The content of a message survives the proxy unchanged exactly when no thinking block is marked
  as redacted and no tool call bears a thought signature; the protocol has no field for either
  (`ProxyRoundTrip.RoundTrip`; `MarksLost`).
- Every event of a proxy response is decoded, and the promise of its final message kept, exactly
  when its last, unterminated line carries none (`ProxyRoundTrip.AllEventsDecoded`;
  `LastLineLost`: a `done` event without a final newline).
- A run that throws loses none of the messages it was given exactly when at least as many
  messages have ended since the latest poll that took something as that poll took, or, before
  any such poll, as there were prompts (`QueueLoss.LossExact`; `SteeredRunLoses`: a listener
  throws on the `turn_start` after a steering poll that took a message).
- Over a history of an agent the pending set always holds exactly the ids of the open calls of
  the active run if and only if no call ends under an id that another of them has and no reset
  happens while any is open (`Lifecycle.PendingAcrossRuns`; `LateEndDisturbs`: a call that
  outlives its failed run ends under the id of a call of the next run).
- The nested loops stop exactly when finitely many turns have tools that ask for another one and
  finitely many messages are taken from the queues (`Termination.StopsExactly`;
  `UnknownToolsForEver`: a model that goes on calling a tool that does not exist).
- In a quoted token without an `@` of its own, files are offered for the quoted prefix exactly
  when the last word inside the quotes does not begin with `@`, and completion is forced or the
  line does not start with a slash (`Suggestion.QuotedIsActive`; `MentionExample`: `"my @foo`;
  `ArgumentExample`: `/model a "foo`).
- All of a number of descents from inside quotes are offered for the quoted prefix exactly when
  the prefix has an `@` of its own or the condition above holds of every path but the last
  (`Suggestion.Descents`). Otherwise quotes can pile up (`FourQuotesExample`: accepting
  `docs/a b/` in `"my @docs/"`).
- Accepting a quoted directory leaves the cursor before its closing quote, where the extractor
  finds the value less that quote, exactly when the prefix is not taken for a slash command
  (`Completion.DirectoryAccepted`; `Suggestion.BlankPathExample`: `my dir/` for the path `/m`
  behind a blank).
- A built completion value parses back to its path exactly unless an unquoted path begins like a
  marker (`Autocomplete.BuildParses`; `PlainPathMisread`: the path `@x`).
- The disk cache agrees with the function it wraps exactly when calls that share a key share
  their result (`DiskCaching.AgreementExact`; `SameNameExample`: two functions of one
  `__name__`).
- The second flush in the oversized branch of the transcript packer can never happen: the first
  one has always emptied the buffer (asserted in `TranscriptPacker.SplitIntoFiles`).

## Model

| member | source | states |
|---|---|---|
| RunGuarantees.EveryRunObeys | packages/agent/src/agent-loop.ts:155-269 | from any idle agent, under every script, tool schedule and user behaviour, a run keeps all rules of the observer, and a finished run ends with `agent_end` |
| RunGuarantees.TraceGrammar | packages/agent/src/agent-loop.ts:155-368 | turns and message brackets never overlap and are each closed once; updates only inside an assistant's bracket; `agent_start` exactly first, `agent_end` last after at least one closed turn |
| RunGuarantees.ReplicaAgreement | packages/agent/src/agent-loop.ts:163-368 | at every LLM call and `turn_end` the loop's private context is the latest replacement by `prepareNextTurn`, or else the initial transcript, and everything committed since; while streaming, that plus the agent's partial message; before any replacement it is the agent's transcript |
| RunGuarantees.SinceOverride | packages/agent/src/agent-loop.ts:226-230 | after a replacement the context is the replacement followed by exactly what is committed since |
| RunGuarantees.NewMessagesExact | packages/agent/src/agent-loop.ts:197-268 | at `agent_end` the transcript is the initial one followed by exactly the reported new messages, overrides or not |
| RunGuarantees.ToolCallPairing | packages/agent/src/agent-loop.ts:181-216 | at every LLM call each turn that ended since the context was last replaced sits in the context, where its `turn_end` left it, as its assistant message immediately followed by one result per tool call, in order, with matching ids |
| RunGuarantees.PairingAfterOverride | packages/agent/src/agent-loop.ts:181-230 | a turn that ended before the latest replacement is paired in the part of the context that stems from the replacement exactly where the replacement pairs it |
| RunGuarantees.TurnLeavesPairs | packages/agent/src/agent-loop.ts:193-218 | a turn that did not fail ends with its message and one matching result per tool call, adjacent at the end of the transcript and of the context |
| RunGuarantees.NotFailedBefore | packages/agent/src/agent-loop.ts:194-198 | only the last assistant message of a run can have failed: no LLM call follows a failed one |
| RunGuarantees.PendingExact | packages/agent/src/agent.ts:521-533 | within a run, the pending set holds exactly the ids of calls started and not ended when a message's ids are distinct, never more, and is empty at every `turn_end` even when ids repeat |
| RunGuarantees.TurnBound | packages/agent/src/agent-loop.ts:170-266 | at every point, turns are at most one, plus turns whose tools asked to go on, plus messages taken from either queue |
| RunGuarantees.DemandExact | packages/agent/src/agent-loop.ts:201-212 | at every point where `prepareNextTurn` is asked, tools want another turn exactly if some call since the latest LLM call ended without asking to terminate |
| Termination.LoopsStop | packages/agent/src/agent-loop.ts:170-266 | a run that is given more answers than one plus that work gets to its `agent_end` |
| Termination.StopsExactly | packages/agent/src/agent-loop.ts:170-266 | with a world that always answers, the nested loops stop if and only if that work is bounded |
| Termination.UnknownToolsForEver | packages/agent/src/agent-loop.ts:174-245 | a run whose model calls tools that do not exist, and which nobody stops, never ends, however many turns it gets |
| RunGuarantees.PolledIsInjected | packages/agent/src/agent-loop.ts:181-190 | the injected messages are always the front of the prompts and then everything polled, in order; at every poll, every LLM call and the end they are all of it |
| RunGuarantees.FollowUpsWait | packages/agent/src/agent-loop.ts:244-263 | queues are polled only while the run goes on; follow-ups only when the steering poll since the latest turn came back empty and no tool batch asks for another turn |
| RunGuarantees.TurnsHaveReasons | packages/agent/src/agent-loop.ts:170-190 | a turn after the first starts only because tools ask for it or a polled message waits to be injected, never after a failed message or a stop |
| RunGuarantees.RunEndsForAReason | packages/agent/src/agent-loop.ts:194-268 | a run ends only in one of the four ways: failed message, stop by the application, or no demand and two empty polls since the last turn |
| ScriptHeard.ScriptHeeded | packages/agent/src/agent-loop.ts:155-269 | final messages, context replacements, stops and user actions reach the run turn by turn in the order of the script, the follow-up poll last if there is one; an unfinished run has used up the script |
| QueueConservation.QueueConserved | packages/agent/src/agent.ts:118-149 | at every point of a run without clears so far, what was queued before plus everything enqueued equals what was taken plus what is still queued, in order, for any modes and mode changes |
| QueueConservation.PollsByMode | packages/agent/src/agent.ts:419-446 | each poll takes everything, or the oldest message, by the mode its queue has then; the first poll takes nothing exactly if it is skipped or there is nothing |
| QueueLoss.LossExact | packages/agent/src/agent.ts:464-471 | however far a run gets, nothing it was given is lost exactly if at least as many messages have ended since the latest poll that took something as it took, or as there were prompts before any such poll |
| QueueLoss.LossFromLatestPoll | packages/agent/src/agent.ts:438-445 | what is lost was taken by the latest poll: everything given before it is injected |
| QueueLoss.SteeredRunLoses | packages/agent/src/agent.ts:438-471 | a run steered with a message that is lost when a listener throws on the next `turn_start`: in no queue and not in the transcript |
| ExecutorRefinement.ExecutorsAgree | packages/agent/src/agent-loop.ts:373-506 | for a whole run, changing execution modes and schedules changes nothing but the tool events: same LLM contexts, same messages, same polls, same end |
| ExecutorRefinement.TurnOutcome | packages/agent/src/agent-loop.ts:373-506 | one turn ends in the same context, new messages and demand for another turn under either executor and every schedule |
| BatchTheorems.SchedulesAreInterleavings | packages/agent/src/agent-loop.ts:477-494 | the schedules of the model yield exactly the step sequences that launch the prepared calls in source order, each up to its first wait, and then interleave what is left of them |
| BatchTheorems.LaunchOrder | packages/agent/src/agent-loop.ts:477-494 | tools execute in source order; before an execution nothing has happened but starts, ends of calls that may not run, and executions and updates of earlier calls |
| BatchTheorems.EveryCallOnce | packages/agent/src/agent-loop.ts:395-506 | in both executors and under every schedule a call goes through one start, at most one execution with its updates, and one end, in that order |
| BatchTheorems.ParallelOrder | packages/agent/src/agent-loop.ts:447-506 | in a parallel batch no start follows an execution, and nothing but result messages follows the first result message |
| BatchTheorems.ParallelRefinesSequential | packages/agent/src/agent-loop.ts:395-506 | both executors commit the same result messages, one per call in source order |
| BatchTheorems.RunsIfAdmitted | packages/agent/src/agent-loop.ts:552-602 | a call executes exactly when its tool exists, its arguments adapt and validate, and no hook blocks or throws; otherwise it ends as an error |
| BatchTheorems.BlockedCallsContinue | packages/agent/src/agent-loop.ts:534-536 | a batch with a call that may not execute always asks for another turn |
| BatchTheorems.FirstToolFound | packages/agent/src/agent-loop.ts:559-566 | the tool of a call is the first with its name, and none exactly if no tool bears it |
| ToolOutcomes.AdmittedOutcome | packages/agent/src/agent-loop.ts:604-681 | an admitted call ends with its tool's output unchanged, or with an error result if the tool throws; only `afterToolCall` changes that, replacing exactly the fields it answers, or turning it into an error if it throws |
| ToolOutcomes.RefusedOutcome | packages/agent/src/agent-loop.ts:552-602 | a call that does not run ends as an error that says why: no such tool, bad arguments, or what the hook objects or throws |
| ToolOutcomes.CallReported | packages/agent/src/agent-loop.ts:395-506 | in both executors and under every schedule an admitted call is told of as its start, its execution, its tool's updates in order, and its end, and its result message carries the same outcome |
| ToolOutcomes.RefusalReported | packages/agent/src/agent-loop.ts:463-475 | a refused call is told of as its start and at once its end, and its result message carries the same error |
| ToolOutcomes.ExecutorChosen | packages/agent/src/agent-loop.ts:373-388 | a batch runs one call at a time exactly if it is configured so or some call's first tool of that name is marked sequential |
| ToolOutcomes.SequentialOrder | packages/agent/src/agent-loop.ts:395-445 | in sequential execution, whenever anything happens of a call, exactly the results of the calls before it are committed |
| ToolOutcomes.LaunchedBefore | packages/agent/src/agent-loop.ts:477-494 | when a tool is launched, each earlier call has executed and sent exactly the updates its tool sends at once |
| ToolOutcomes.TurnRunsTools | packages/agent/src/agent-loop.ts:201-216 | a turn runs the calls of its answer with the tools and hooks of the turn against everything up to that answer |
| LoopSafety.StreamSafe | packages/agent/src/agent-loop.ts:309-367 | a streamed response keeps the rules exactly when it announces its message at most once, and then commits one message |
| LoopSafety.StreamReported | packages/agent/src/agent-loop.ts:309-367 | a response is reported by one step for each stream event from the first announcement on, in order, with its partial message at the end of the context, and then the end of the final message, announced right before if nothing was |
| LoopSafety.ContextAfterStream | packages/agent/src/agent-loop.ts:309-367 | after such a response the context is the old one plus the final message, whatever partial messages were in its place |
| BatchSafety.BatchSafe | packages/agent/src/agent-loop.ts:395-506 | a batch in either mode keeps the rules: starts in source order, ends after starts, nothing open before the first result |
| Reducer.ReplayTranscript | packages/agent/src/agent.ts:506-544 | folding events appends to the transcript exactly the messages that ended |
| Reducer.CutCommitsPrefix | packages/agent/src/agent.ts:464-471 | stopping a run early commits a prefix of what the uncut run commits |
| AgentCore.PendingMessageQueue.Enqueue | packages/agent/src/agent.ts:123-125 | appends, and keeps the mode |
| AgentCore.PendingMessageQueue.HasItems | packages/agent/src/agent.ts:127-129 | true exactly when something is queued |
| AgentCore.PendingMessageQueue.Drain | packages/agent/src/agent.ts:131-144 | in mode `all` takes everything; in mode `one-at-a-time` the oldest message if there is one; taken plus left is what was there, and the mode stays |
| AgentCore.Agent.HasQueuedMessages | packages/agent/src/agent.ts:287-289 | true exactly when either queue holds something |
| AgentCore.Agent.Perform | packages/agent/src/agent.ts:243-299 | queueing, mode changes, clears and abort touch their own queue or the abort signal and nothing else |
| AgentCore.Agent.Reset | packages/agent/src/agent.ts:311-319 | empties transcript, runtime state and both queues, keeping modes and the active run |
| AgentCore.Agent.ProcessEvents | packages/agent/src/agent.ts:506-554 | says for each field of the state which events change it and how, and refuses the event exactly when no run is active |
| AgentCore.Agent.HandleRunFailure | packages/agent/src/agent.ts:473-489 | folds the four failure events up to the one a listener refuses; commits the failure message once unless that is the first, and records the error |
| AgentCore.Agent.FinishRun | packages/agent/src/agent.ts:491-497 | whatever happened, the agent is idle: not streaming, no partial message, no pending calls |
| AgentLoop.LoopRun.StreamAssistantResponse | packages/agent/src/agent-loop.ts:275-368 | emits exactly the specified steps of a response, or a prefix if the world throws, and updates the context in place accordingly |
| AgentLoop.LoopRun.ExecutePreparedToolCall | packages/agent/src/agent-loop.ts:604-639 | executes once, reports every update, and resolves to what the tool returned or threw, as `ToolOutcomes.AdmittedOutcome` says |
| AgentLoop.LoopRun.ExecuteToolCallsSequential | packages/agent/src/agent-loop.ts:395-445 | one call after the other, each from start to result message; results in source order |
| AgentLoop.LoopRun.PrepareCalls | packages/agent/src/agent-loop.ts:456-490 | starts every call in source order, ends at once those that may not run, and defers the others |
| AgentLoop.LoopRun.LaunchCalls | packages/agent/src/agent-loop.ts:492-494 | launches the deferred calls in source order, each up to its first wait |
| AgentLoop.LoopRun.RunTasks | packages/agent/src/agent-loop.ts:477-494 | lets launched calls move in any order until all have ended, each with its own outcome |
| AgentLoop.LoopRun.ReportResults | packages/agent/src/agent-loop.ts:495-500 | result messages one per call in source order, whatever the completion order |
| AgentLoop.LoopRun.ExecuteToolCallsParallel | packages/agent/src/agent-loop.ts:447-506 | the whole concurrent batch takes exactly the specified steps and returns all results and the terminate flag |
| AgentLoop.LoopRun.ExecuteToolCalls | packages/agent/src/agent-loop.ts:373-388 | one sequential tool or a sequential configuration keeps the whole batch sequential |
| AgentLoop.ShouldTerminateToolBatch | packages/agent/src/agent-loop.ts:534-536 | true exactly for a non-empty batch in which every result asks to terminate |
| AgentLoop.LoopRun.RunTurn | packages/agent/src/agent-loop.ts:174-218 | one turn from injection to `turn_end`, with its effect on context and new messages |
| AgentLoop.LoopRun.PollQueue | packages/agent/src/agent.ts:438-445 | users act, then the queue is drained by its mode at that moment |
| AgentLoop.LoopRun.RunTurns | packages/agent/src/agent-loop.ts:174-245 | the inner loop goes on exactly while tools or steering ask for more |
| AgentLoop.LoopRun.RunLoop | packages/agent/src/agent-loop.ts:155-269 | the nested loops take exactly the steps of the specified run through all four exits, or a prefix if the world throws |
| AgentLoop.LoopRun.RunAgentLoopContinue | packages/agent/src/agent-loop.ts:120-143 | refused before any step exactly when the context is empty or ends with an assistant message; otherwise a run without prompts |
| AgentLoop.LoopRun.RunAgentLoop | packages/agent/src/agent-loop.ts:95-118 | announces the run, its first turn and its prompts, then loops |
| AgentRuns.RunWithLifecycle | packages/agent/src/agent.ts:448-497 | a completed run leaves the initial transcript plus what it committed; one that throws at any step leaves the initial transcript, a prefix of that, and one failure message, marked aborted exactly if it was aborted by then; both queues are what the steps and the users made of them, conserved; the agent is idle afterwards even if listeners refuse the report |
| AgentRuns.ThrownRunLoss | packages/agent/src/agent.ts:464-471 | the same count decides for a run that throws after any number of its steps |
| AgentRuns.ReachedObeys | packages/agent/src/agent.ts:464-471 | whatever a run gets to do before the world throws obeys every rule and so every guarantee above |
| AgentRuns.Prompt | packages/agent/src/agent.ts:322-333 | refused exactly while a run is active, changing nothing; otherwise as above |
| AgentRuns.Continue | packages/agent/src/agent.ts:335-362 | refused exactly while a run is active or when there is nothing to continue from, leaving state and both queues alone; otherwise runs with the drained prompts, skipping the first steering poll only after drained steering |
| AgentRuns.TakeContinuation | packages/agent/src/agent.ts:335-359 | takes the prompts of a continuation off their queue, or refuses and leaves both queues alone |
| AgentRuns.ContinuationConserves | packages/agent/src/agent.ts:345-359 | the prompts of a continuation come off the front of one queue, steering first, and the other queue is untouched |
| Lifecycle.AtMostOneLive | packages/agent/src/agent.ts:448-497 | in every history of calls, run steps, throws and leftover tool events at most one executor is live; an agent without active run is idle |
| Lifecycle.Drive | packages/agent/src/agent.ts:243-554 | every move of a history is what the agent's own methods do to its state, its queues and its active run |
| Lifecycle.ContinueRefused | packages/agent/src/agent.ts:335-362 | exact condition for refusing `continue()`, and that a refusal changes nothing |
| Lifecycle.TranscriptAppends | packages/agent/src/agent.ts:516-519 | without a reset the transcript only grows, across runs and failures |
| Lifecycle.FailureCommitsOnce | packages/agent/src/agent.ts:464-489 | between a throw and the end of its report the transcript gains exactly the failure message, whatever else is called on the agent meanwhile |
| Lifecycle.PendingAcrossRuns | packages/agent/src/agent.ts:521-533 | over any history of runs, throws and late tool events, the pending set is at every point exactly the ids of the open calls of the active run, if and only if no call ends under an id another of them has and no reset happens while any is open |
| Lifecycle.LateEndDisturbs | packages/agent/src/agent.ts:528-533 | a history that breaks it: a call of a failed run ends under the id of a call of the next run |
| Framing.LinesUnique | packages/agent/src/proxy.ts:191-193 | lines and buffer are the one way to cut the text at its newlines: nothing lost, nothing added, no newline inside |
| Framing.LinesAppend | packages/agent/src/proxy.ts:191-193 | splitting the kept tail together with the next read is splitting the whole text |
| Proxy.ProxyStream.ProcessProxyEvent | packages/agent/src/proxy.ts:238-367 | applies each event in place as specified, ignores one of an unknown type, or throws leaving the message unchanged |
| Proxy.ProxyStream.ReadChunk | packages/agent/src/proxy.ts:191-206 | the lines handed to the decoder are those of all text read so far, and the buffer is exactly its unterminated tail |
| Proxy.ProxyStream.ReadAll | packages/agent/src/proxy.ts:183-224 | however the text is cut into reads, the result depends on the text alone, for errors and aborts too |
| ProxyRoundTrip.BlocksAreSeparate | packages/agent/src/proxy.ts:246-348 | decoding succeeds exactly when each block's own events are well formed, and interleaving blocks changes nothing |
| ProxyRoundTrip.StrippedRevises | packages/agent/src/proxy.ts:246-348 | folding the stripped form of one block, cut into any deltas, gives it back with no leftover `partialJson` |
| ProxyRoundTrip.Rebuilds | packages/agent/src/proxy.ts:238-348 | any fragmentation and any interleaving decodes to exactly the blocks the protocol can carry, in their places |
| ProxyRoundTrip.RoundTrip | packages/agent/src/proxy.ts:36-57 | the original content comes back unchanged exactly when it has no redaction mark and no thought signature |
| ProxyRoundTrip.MarksLost | packages/agent/src/proxy.ts:36-57 | a redacted thought comes back unmarked and a signed tool call without its signature |
| ProxyRoundTrip.PushesInOrder | packages/agent/src/proxy.ts:199-203 | listeners get one update per event, in order |
| ProxyRoundTrip.EndedExact | packages/agent/src/proxy.ts:263-345 | the update for the end of a block carries the whole block, and no other update carries one |
| ProxyRoundTrip.ThrowsExactly | packages/agent/src/proxy.ts:246-348 | an event throws exactly if it continues a block, or ends a text or a thought, that is missing or of another kind; the end of a missing tool call does nothing |
| ProxyRoundTrip.FailureReported | packages/agent/src/proxy.ts:209-224 | a throw is reported as an error with its text, an abort as aborted, both keeping what was decoded; without either nothing is reported |
| ProxyRoundTrip.PayloadExact | packages/agent/src/proxy.ts:195-198 | a line carries what stands behind `data: ` less the space around it; any other line carries nothing |
| ProxyRoundTrip.ArgumentsExact | packages/agent/src/proxy.ts:313-330 | tool arguments are parsed from all that the deltas spell, and are an empty object if that is blank |
| ProxyRoundTrip.MessageReceived | packages/agent/src/proxy.ts:179-213 | from response text to message, for responses closed by `done` or by `error`: content, stop reason, usage and error message are those sent, and every event is pushed in order |
| ProxyRoundTrip.TailIgnored | packages/agent/src/proxy.ts:192-207 | what follows the last newline is never decoded |
| ProxyRoundTrip.AllEventsDecoded | packages/agent/src/proxy.ts:192-213 | every event of a closed response is decoded, and the final message is delivered, exactly if its last, unterminated line carries no event |
| ProxyRoundTrip.LastLineLost | packages/agent/src/proxy.ts:192-213 | a `done` event without a final newline is lost without an error, and the final message never comes |
| Autocomplete.FindLastDelimiter | packages/tui/src/autocomplete.ts:45-52 | the loop finds the last delimiter, -1 if there is none |
| Autocomplete.FindUnclosedQuoteStart | packages/tui/src/autocomplete.ts:54-68 | the toggling loop finds the last quote exactly when the number of quotes is odd |
| Autocomplete.QuotedPrefixExact | packages/tui/src/autocomplete.ts:74-92 | a quoted prefix is extracted exactly where an opening quote, with or without `@`, starts a token outside quotes and stays open |
| Autocomplete.PrefixesAreSuffixes | packages/tui/src/autocomplete.ts:460-504 | every extracted prefix is a suffix of the text before the cursor |
| Autocomplete.LastWordExact | packages/tui/src/autocomplete.ts:460-504 | outside quotes the prefix is the last word: always when forced, else if it looks like a path; a mention if it begins with `@` |
| Autocomplete.BuildParses | packages/tui/src/autocomplete.ts:94-121 | parsing undoes building exactly unless an unquoted path begins like a marker |
| Autocomplete.PlainPathMisread | packages/tui/src/autocomplete.ts:94-121 | the plain path `@x` reads as a mention of `x` |
| Completion.ApplyCompletion | packages/tui/src/autocomplete.ts:372-457 | all four branches replace the prefix and place the cursor as one rule says |
| Completion.SpliceCorrect | packages/tui/src/autocomplete.ts:372-457 | other lines stay, left and right parts stay but for at most one leading quote, and the cursor is inside or right behind the insertion |
| Completion.CompletionExact | packages/tui/src/autocomplete.ts:372-457 | exactly what stands before and behind the cursor after a completion, on all branches: slash and space of a command, space of a mentioned file, closing quote of a directory, and the quote that is replaced |
| Suggestion.ActiveStands | packages/tui/src/autocomplete.ts:281-370 | whatever prefix is completed, mention, command, argument or path, ends at the cursor, so splicing applies |
| Suggestion.ActiveExact | packages/tui/src/autocomplete.ts:281-370 | outside quotes, exactly which prefix is completed: mention, command, argument or path |
| Completion.DirectoryAccepted | packages/tui/src/autocomplete.ts:390-457 | accepting a quoted directory leaves the cursor before its closing quote, where the extractor returns the value less that quote, exactly if the prefix is not taken for a slash command; if it is, the cursor ends up behind both quotes |
| Completion.FileAccepted | packages/tui/src/autocomplete.ts:390-457 | accepting a quoted file leaves no quote open before the cursor, on all branches |
| Suggestion.Descents | packages/tui/src/autocomplete.ts:281-457 | all descents are offered for the quoted prefix exactly under a condition on the paths and the start of the line; then one opening and one closing quote are left around the last path, and the rest of the line as it was |
| Suggestion.QuotedIsActive | packages/tui/src/autocomplete.ts:281-370 | when files are offered for the quoted prefix, exactly: its own `@`, or no `@` at its last word and no command line |
| Suggestion.MentionExample | packages/tui/src/autocomplete.ts:288-303 | in `"my @foo` the word `@foo` is completed, not the quoted prefix |
| Suggestion.ArgumentExample | packages/tui/src/autocomplete.ts:305-356 | in `/model a "foo` the argument `a "foo` is completed, or nothing, not the quoted prefix |
| Suggestion.FourQuotesExample | packages/tui/src/autocomplete.ts:281-457 | a descent through a word with `@` inside quotes leaves four quotes |
| Suggestion.BlankPathExample | packages/tui/src/autocomplete.ts:281-401 | behind a blank, `/m` is completed as a path, and accepting `my dir/` for it is spliced like a command with the cursor behind the quotes |
| TranscriptPacker.SplitIntoFiles | scripts/session-transcripts.ts:196-241 | the files are an order-preserving division of all transcripts under consecutive names, each within the limit or a single transcript, and no such division needs fewer files |
| TranscriptPacker.NamesDistinct | scripts/session-transcripts.ts:204 | no output file overwrites another, however many there are |
| TranscriptPacker.NameExact | scripts/session-transcripts.ts:204 | a file is named by its index, padded with zeros to three digits |
| TranscriptPacker.NoneReachesFurther | scripts/session-transcripts.ts:201-210 | closing a file only when the next transcript does not fit gets at least as far as any division with as many files |
| DiskCaching.DiskCache.LookUp | cache_decorator.py:139-143 | answers exactly from an entry that is present and not expired |
| DiskCaching.DiskCache.Store | cache_decorator.py:148-153 | writes unless a fresh entry is already there |
| DiskCaching.DiskCache.Wrapper | cache_decorator.py:133-155 | answers what the function answers and keeps the disk in agreement with it |
| DiskCaching.CacheAgrees | cache_decorator.py:121-155 | for any number of threads interleaved with clears and clock ticks, every stored, pending and returned value equals the direct call |
| DiskCaching.AgreementExact | cache_decorator.py:35-49 | that agreement holds in every history exactly when calls sharing a key share their result |
| DiskCaching.InjectiveKeysAgree | cache_decorator.py:35-49 | with injective keys it holds in every history, whatever the function and the time to live |
| DiskCaching.SameNameExample | cache_decorator.py:133-155 | two functions of one `__name__` sharing a directory break it |
| DiskCaching.FreshStays | cache_decorator.py:77-82 | without a clear an entry is overwritten only after it has expired |
| DiskCaching.StaleIsNotAnswered | cache_decorator.py:139-146 | a thread is answered from the disk exactly by an entry no older than the time to live, or of any age if there is none |
| DiskCaching.StaleIsReplaced | cache_decorator.py:148-153 | what a thread computed is stored exactly if there is no entry or a stale one |
| DiskCaching.ClearForgets | cache_decorator.py:121-128 | after a clear every call goes to the function |
| DiskCaching.ForeverStays | cache_decorator.py:79-80 | with no expiry the first stored entry stays until a clear |

## Left out

- Model choice, thinking level, API keys, `transformContext` and `convertToLlm`: they change what is sent to the provider, not the steps of a run; a throw in any of them is a run that throws.
- Timestamps, usage, model and provider fields of messages.
- Listeners that change the transcript, and writes to `state.messages` or `state.tools` by the application during a run; `reset()` during a run is covered in `Lifecycle.dfy` only.
- What `prepareNextTurn` puts into a replacement context: any list of messages; whether it pairs the calls of earlier turns with their results is up to the application.
- Application calls between two steps other than the polls: in `LoopSpec.dfy` they are gathered before the next poll, and after the latest poll in `AgentRuns.dfy` at the end of the run, where they take effect; `Lifecycle.dfy` allows them anywhere.
- AgentCore.Agent.ProcessEvents: does not model the listeners themselves; their exceptions appear as a run that throws.
- A listener that throws on a tool update: the model ends the run there, the source only once the tool has resolved; nothing but tool events can happen in between.
- Tool calls that report updates after they resolved; events of calls that outlive a failed run are modelled in `Lifecycle.dfy`.
- `EventStream`, `subscribe`, `waitForIdle` and the abort wiring beyond the abort flag.
- Schema validation of tool arguments, JSON parsing and the proxy's event parser: arbitrary functions.
- HTTP, authentication and UTF-8 decoding in the proxy; text is a sequence of characters.
- Columns in the editor's completion count characters, in the source UTF-16 code units.
- Negative or fractional content indexes in proxy events.
- File system walking, scoring, sorting, what is suggested for a slash command, and home-directory expansion in the editor's completion.
- Completion.SetLine: does not distinguish the holes of a JavaScript array from empty lines, which read the same.
- The command line, the collection of sessions and the subagents of the transcript script; files of an earlier, longer output are not removed by it.
- Hashing of cache keys, JSON round trips of cached values, unreadable or unwritable cache files, and other processes sharing the directory.
- Providers, model catalogues, generators, `KillRing`, `UndoStack` and registries: they would add only easy members.
