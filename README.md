# Deep think engine: a verified model

This project models the "deep think" engine of the Prisma chat client. A run
answers a user query in four stages:

1. It publishes the state `analyzing`. A primary expert starts answering the
   query, and a planning call asks the model for a panel of supplementary
   experts.
2. It publishes the panel and the state `experts_working`. Every expert
   streams its answer into its own slot.
3. It publishes `synthesizing` and streams a synthesis of all the answers
   into the final output.
4. It publishes `completed`.

The user can stop or reset the engine at any time. A new run aborts the
previous one.

The model has these parts:

- `Types`: the records of `prisma/types.ts`. The planning answer is a
  general JSON value (`Json`), because the source casts it to
  `AnalysisResult` without checking its elements.
- `Js`: the JavaScript semantics the engine relies on:
  - how a template literal prints a value;
  - truthiness;
  - `String.prototype.trim`;
  - `Array.prototype.join`;
  - the decimal text of an index.
- `Prompts`: the exact prompt texts.
- `Manager`: the planning call and the validation of its answer.
- `Abort`: `AbortController`, with the moment of an outside stop given as
  part of the scenario.
- `Chunks`: the streaming loop shared by the expert and synthesis calls.
  Each chunk's parts are split into answer text and thought text, and there
  is one callback per chunk that has parts.
- `Expert`: one expert's streaming call.
- `Synthesis`: the synthesis call.
- `DeepThink`: the `useDeepThink` hook. `DeepThinkEngine` is a class whose
  fields are the hook's state (`experts` stands for both the `experts` state
  and `expertsDataRef`). Its methods are the run, one expert's lifecycle,
  stop and reset.

The generative-AI SDK is given as total functions. `planning` answers the
planning request or throws. `generate` and `initiate` either open a stream
or throw. A stream is a finite sequence of chunks, followed either by its
end or by the error it throws. `cleanJsonString` and `JSON.parse` are the
functions `clean` and `parse`. `parse` returns `None` where `JSON.parse`
throws.

A run is modelled as one sequential execution of its asynchronous steps, in
this order:

1. the primary expert's lifecycle;
2. the planning call;
3. the supplementary lifecycles, one after another;
4. the synthesis.

Every read of `signal.aborted` is a numbered poll. An outside abort (a
stop, or a newer run) is seen by every poll from a given number on
(`AbortController.stopAt`). `Date.now()` is a counter that advances at each
reading.

The planning call does not absorb every error. Its SDK call
(prisma/services/deepThink/manager.ts:34-46) stands before the `try` at line
51, so an error it throws leaves the planning call and reaches the run's
`catch` (prisma/hooks/useDeepThink.ts:257-264). In the model,
`Manager.ExecuteManagerAnalysis` returns `Thrown`, and the run publishes
`idle` unless its signal is aborted.

## Model

| member | source | states |
|---|---|---|
| Js.TrimEmptyIffBlank | prisma/hooks/useDeepThink.ts:126 | `s.trim()` is empty if and only if every character of `s` is ECMAScript whitespace or a line terminator |
| Js.TrimsToEmpty | prisma/hooks/useDeepThink.ts:126 | the test `!query.trim()` holds exactly for whitespace-only queries |
| Js.JoinAt | prisma/hooks/useDeepThink.ts:153 | in `xs.join(sep)`, element `i` stands at its offset, after every earlier element and one separator after each, and the last element ends the string |
| Js.JoinSeparatorAt | prisma/services/deepThink/prompts.ts:27 | between consecutive elements of a join stands exactly one separator |
| Js.SeparatorAfter | prisma/services/deepThink/prompts.ts:27 | with a one-character separator, the character right after a non-last element is the separator |
| Js.NatText | prisma/hooks/useDeepThink.ts:200 | the decimal text of an index is non-empty and made of digits |
| Js.NatTextInjective | prisma/hooks/useDeepThink.ts:200 | distinct indices print differently |
| Prompts.ExpertSystemInstructionLayout | prisma/services/deepThink/prompts.ts:13-15 | the expert instruction opens with "You are a " and the role, and closes with ". Context: " and the whole context; its length is the parts' lengths plus 23 |
| Prompts.SynthesisPromptFrame | prisma/services/deepThink/prompts.ts:17-34 | the synthesis prompt opens with the intro and then the recent history, quotes the query two newlines after the history, then holds the expert panel, and ends with the task text |
| Prompts.BlockInPanel | prisma/services/deepThink/prompts.ts:27 | the block of expert `i` stands in the panel at its offset |
| Prompts.NextBlockFollows | prisma/services/deepThink/prompts.ts:27 | exactly one newline separates the block of expert `i` from that of expert `i + 1`, and the last block ends the panel |
| Prompts.BlockShape | prisma/services/deepThink/prompts.ts:27 | a block is its header, its body and a newline; the body is the truthy content, or "(No output)" when the content is missing or "" |
| Prompts.RoleInBlock | prisma/services/deepThink/prompts.ts:27 | the role's text stands right after "--- Expert: " in the block |
| Manager.ManagerContentsLayout | prisma/services/deepThink/manager.ts:36 | the planning request holds the whole context after "Context:\n" and ends with the whole query and a closing quote |
| Manager.RawText | prisma/services/deepThink/manager.ts:48 | the answer text, or "{}" when it is falsy, is never empty and is the answer text when that is non-empty |
| Manager.ExecuteManagerAnalysis | prisma/services/deepThink/manager.ts:6-61 | the planning call throws exactly when the SDK call throws, with the same error; otherwise its result has an `experts` array and is either the parse of the cleaned answer or the fallback |
| Manager.PlanAfterReply | prisma/services/deepThink/manager.ts:51-59 | once the SDK has answered: a parse failure gives the fallback, a parse whose `experts` is missing or not an array gives the fallback, and an accepted parse is returned unchanged, with no check on the count or on the elements |
| Manager.EmptyReplyFallsBack | prisma/services/deepThink/manager.ts:48-59 | a missing or empty answer is read as "{}", and the result is the fallback |
| Manager.FallbackHasNoExperts | prisma/services/deepThink/manager.ts:59 | the fallback `{thought_process: "Direct processing.", experts: []}` is an accepted plan with no experts |
| Abort.AbortController.constructor | prisma/hooks/useDeepThink.ts:132 | a new controller is not aborted and has not been polled |
| Abort.AbortController.PassingPolls | prisma/services/deepThink/expert.ts:26-27 | the polls counted pass with the signal clear, and the first poll after them sees it aborted |
| Abort.AbortController.Abort | prisma/hooks/useDeepThink.ts:27 | `abort()` sets the signal |
| Abort.AbortController.IsAborted | prisma/services/deepThink/expert.ts:27 | a poll sees the signal aborted if it was aborted or the outside abort has landed, and the signal stays aborted; it counts as one more poll, and afterwards the signal is set exactly when it was set before or the outside abort landed by this poll |
| Abort.PolledFromCompose | prisma/hooks/useDeepThink.ts:193-228 | two stretches of polls make one: if the signal after the first stretch is set exactly when it was set before or the outside abort landed in it, and likewise for the second, then the same holds across both, so no code between the polls sets the signal |
| Abort.CheckAfterPolls | prisma/hooks/useDeepThink.ts:193-228 | a check made after further polls sees the signal set exactly when it was set before them or the outside abort has landed by the check |
| Chunks.SplitChunk | prisma/services/deepThink/expert.ts:29-39 | the loop over one chunk's parts yields the answer texts and the thought texts of the parts, in part order |
| Chunks.AnswerTextAppend | prisma/services/deepThink/expert.ts:33-39 | splitting is compositional: the split of `a + b` is the split of `a` followed by that of `b` |
| Chunks.SplitKeepsAllText | prisma/services/deepThink/expert.ts:34-38 | every part's text goes to exactly one of the two strings |
| Chunks.DeltaPerChunk | prisma/services/deepThink/expert.ts:32-40 | `onChunk` is called exactly once per chunk that has parts, in stream order, with that chunk's split, even when both strings are empty |
| Chunks.DeltasConcatenate | prisma/services/deepThink/expert.ts:26-42 | the concatenated callback texts are the answer texts of all parts in stream order, and likewise the thoughts |
| Chunks.DeltasOfPrefix | prisma/services/deepThink/expert.ts:26-27 | what an interrupted stream delivered is a prefix of what the whole stream delivers |
| Chunks.ConsumeStream | prisma/services/deepThink/expert.ts:26-42 | the abort flag is polled before each chunk; the chunks before the first poll that sees it are reported and no later one is; a stream that no poll stops is reported whole and its error, if any, leaves the loop; the signal is set afterwards only by an outside abort landing during the loop |
| Expert.ExpertRequestShape | prisma/services/deepThink/expert.ts:13-24 | the request sends the expert's prompt and temperature, and the instruction names the expert's role and carries the whole context |
| Expert.StreamExpertResponse | prisma/services/deepThink/expert.ts:4-43 | a thrown stream start leaves the call at once, with no retry and no callback; an opened stream is handled by the loop above; the call sets the signal only through an outside abort |
| Synthesis.StreamSynthesisResponse | prisma/services/deepThink/synthesis.ts:5-50 | the request carries the synthesis prompt for the history, the query and the results; only the start of the stream is retried; the loop runs once and a stream error is passed on unchanged; the call sets the signal only through an outside abort |
| DeepThink.OlderMessagesIgnored | prisma/hooks/useDeepThink.ts:151-153 | messages older than the last five do not change the context |
| DeepThink.HistoryLineInContext | prisma/hooks/useDeepThink.ts:151-153 | the line of each recent message stands in the context at its offset, in conversation order |
| DeepThink.ExpertIdInjective | prisma/hooks/useDeepThink.ts:198-202 | `expert-${n}` names distinct positions differently |
| DeepThink.PrimaryExpert | prisma/hooks/useDeepThink.ts:156-163 | the primary expert is `expert-0`, pending, "Primary Responder", with the query as its prompt and temperature 1 |
| DeepThink.PanelIdsDistinct | prisma/hooks/useDeepThink.ts:198-206 | in a panel whose ids follow positions, no two experts share an id |
| DeepThink.Settled | prisma/hooks/useDeepThink.ts:60-117 | the slot a lifecycle leaves keeps the expert's configuration and start time. Completed with an end time when the stream ended. Failed with exactly "Failed to generate response." and an end time when it threw. Still thinking when abandoned after an abort. It holds the streamed content and thoughts unless the call failed |
| DeepThink.SettledSlot | prisma/hooks/useDeepThink.ts:47-118 | the slot an uninterrupted lifecycle leaves, given what its request returned: configuration kept, start and end time one tick apart; completed exactly when the stream opened and ended without error, failed with the failure text otherwise; it holds the thoughts of the whole stream and, when completed, its whole answer text |
| DeepThink.RunTraces | prisma/hooks/useDeepThink.ts:135-264 | each of six sequences is a run trace: analyzing; analyzing, idle; analyzing, experts_working; analyzing, experts_working, synthesizing; and the last followed by completed or by idle |
| DeepThink.EveryRunTraceListed | prisma/hooks/useDeepThink.ts:135-264 | every run trace is one of those six sequences |
| DeepThink.CompletedRunVisitsAllStages | prisma/hooks/useDeepThink.ts:135-255 | a run that publishes completed has published analyzing, experts_working and synthesizing before it, in that order |
| DeepThink.IdleEndsRun | prisma/hooks/useDeepThink.ts:257-264 | idle is published at most once, as a run's last state |
| DeepThink.StopChecksCompose | prisma/hooks/useDeepThink.ts:193-228 | where the checks at lines 193 and 228 leave a run stays true when it is seen from before earlier polls that only an outside abort can have set the signal in |
| DeepThink.StreamOutcome | prisma/services/deepThink/expert.ts:13-42 | seen from the caller, a stream call delivers nothing when it threw at the start and a prefix of the stream otherwise, all of it when the signal is clear; a clear signal with a normal exit means the stream ended without error |
| DeepThink.DeepThinkEngine.constructor | prisma/hooks/useDeepThink.ts:11-23 | the initial state is idle, empty and without a controller |
| DeepThink.DeepThinkEngine.Now | prisma/hooks/useDeepThink.ts:59 | `Date.now()` returns the clock and advances it |
| DeepThink.DeepThinkEngine.SetAppState | prisma/hooks/useDeepThink.ts:11 | `setAppState` publishes the state and records it |
| DeepThink.DeepThinkEngine.StopDeepThink | prisma/hooks/useDeepThink.ts:25-32 | stop aborts and forgets the current controller, if any, then publishes idle and the end time |
| DeepThink.DeepThinkEngine.ResetDeepThink | prisma/hooks/useDeepThink.ts:34-44 | reset publishes idle and returns every per-run field to its initial value, forgetting the controller without aborting it |
| DeepThink.DeepThinkEngine.PanelIdsFollowPositions | prisma/hooks/useDeepThink.ts:156-208 | in the panel of a run, every expert's id names its position |
| DeepThink.DeepThinkEngine.RunDynamicDeepThink | prisma/hooks/useDeepThink.ts:120-268 | a whitespace-only query changes nothing. Otherwise the previous controller is aborted, a fresh one starts, the start time is set, the controller is forgotten at the end and the run's outcome holds (see `RunSteps`); the run's signal is set only by an outside abort, so a run that no stop reaches ends with it clear; when the planning call returns, a stop seen at the check at line 193 ends the run with analyzing alone and one seen at the check at line 228 ends it after experts_working, with nothing polled afterwards, and each of those endings happens only after such a stop |
| DeepThink.DeepThinkEngine.StartRun | prisma/hooks/useDeepThink.ts:128-267 | a run past the blank check: begin, run the steps, then the `finally` as written, which forgets whatever controller is current; the states published are those of `RunSteps`, including where a stop seen at line 193 or line 228 ends the run, and the signal is set only by an outside abort |
| DeepThink.DeepThinkEngine.BeginRun | prisma/hooks/useDeepThink.ts:128-143 | the previous controller is aborted, a fresh clear one is installed, analyzing is published, the analysis, experts, output and thoughts are cleared, the start time is set and the end time is null |
| DeepThink.DeepThinkEngine.RunSteps | prisma/hooks/useDeepThink.ts:150-264 | the states published form a run trace whose last state is current. The signal is set only by an outside abort. There is an end time, and the state is completed or idle, exactly when the signal is clear. The primary expert comes first, every id names its position, and with a clear signal every slot holds what its lifecycle left for its request. A thrown planning call leaves the primary alone and ends in idle unless aborted. A plan is published exactly when experts_working is; it is the planning result with the panel built from it, and an accepted plan is published unless aborted. When the planning call returns, the check at line 193 is one of the run's polls: analyzing alone is published exactly when it sees the signal set or the outside abort landed, and then nothing more is polled; otherwise the check at line 228 is a later poll, and the run ends right after experts_working exactly when the outside abort has landed by it, again with nothing polled afterwards. An abort after planning leaves only the primary; before synthesizing the output and thoughts are empty. With a clear signal after synthesis, completed exactly when the synthesis stream for this panel ended without error, with its whole output and thoughts |
| DeepThink.DeepThinkEngine.ThrownPlanOutcome | prisma/hooks/useDeepThink.ts:257-264 | a run whose planning call threw ends with the primary expert alone, no plan and no output, still analyzing when its signal is set and idle with an end time otherwise, and its outcome holds |
| DeepThink.DeepThinkEngine.StoppedRunOutcomes | prisma/hooks/useDeepThink.ts:193-264 | when the planning call returns, a stop seen at the check at line 193 ends the run there: only analyzing is published, the signal is set, nothing more is polled, there is no plan, the primary expert is alone and there is no output; a stop first seen at the check at line 228 ends it with analyzing and experts_working, the plan and no output, and nothing more is polled; conversely a run that ends in either way was stopped; and a run ends idle or completed exactly when its signal is clear |
| DeepThink.DeepThinkEngine.UnstoppedRunCompletes | prisma/hooks/useDeepThink.ts:135-255 | a run that no stop reached, with an accepted plan and a synthesis stream that ended without error, publishes analyzing, experts_working, synthesizing and completed, and its output and thoughts are the answer and thought texts of every part of the synthesis stream |
| DeepThink.DeepThinkEngine.RunPrimaryExpert | prisma/hooks/useDeepThink.ts:156-179 | the primary expert is published alone and its lifecycle runs in slot 0; the signal is set only by an outside abort; with a clear signal the slot holds what the primary's lifecycle left for its request, and is the result |
| DeepThink.DeepThinkEngine.RunPlannedExperts | prisma/hooks/useDeepThink.ts:193-255 | the check at line 193 is the next poll: analyzing alone is published exactly when it sees the signal set or the outside abort landed, and then nothing more is polled; otherwise the plan and panel are published and run and the run is finished, with the check at line 228 a later poll that ends the run after experts_working exactly when the outside abort has landed by it; the outcome of `RunSteps` holds with the accepted plan, and the signal is set only by an outside abort |
| DeepThink.DeepThinkEngine.StoppedAfterPlanning | prisma/hooks/useDeepThink.ts:193 | a run stopped when its plan arrived has published only analyzing, keeps the primary expert alone with no plan and no output, and its outcome holds |
| DeepThink.DeepThinkEngine.RunAcceptedPlan | prisma/hooks/useDeepThink.ts:194-255 | after an accepted plan the run publishes experts_working and what follows it; it ends right after experts_working exactly when the signal was set before or the outside abort has landed by the check at line 228, which is then the last poll; its outcome holds with the plan, and the signal is set only by an outside abort |
| DeepThink.DeepThinkEngine.RunPanel | prisma/hooks/useDeepThink.ts:194-226 | the plan and the panel are published with experts_working and every id names its position; the signal is set only by an outside abort; with a clear signal every slot holds what its lifecycle left and the results are the panel |
| DeepThink.DeepThinkEngine.FinishRun | prisma/hooks/useDeepThink.ts:228-255 | the check at line 228 is the next poll: the run ends with analyzing and experts_working, empty output and no further poll exactly when that check sees the signal set or the outside abort landed; otherwise the synthesis runs on the panel's results and the run's outcome holds; the signal is set only by an outside abort |
| DeepThink.DeepThinkEngine.PublishPlan | prisma/hooks/useDeepThink.ts:194-210 | the plan is published, the panel is the current primary followed by one pending expert per element, and experts_working is published |
| DeepThink.DeepThinkEngine.RunGeneratedExperts | prisma/hooks/useDeepThink.ts:213-226 | the supplementary lifecycles, expert `i` in slot `i + 1`, keep every configuration and the primary's slot; the signal is set only by an outside abort; with a clear signal afterwards every supplementary slot holds what its lifecycle left for its request and the results are the slots |
| DeepThink.DeepThinkEngine.Synthesize | prisma/hooks/useDeepThink.ts:231-255 | synthesizing is published and the output and thoughts are what the stream delivered. The signal is set only by an outside abort. With the signal clear, completed is published exactly when the stream ended without error, otherwise idle, each with an end time. With the signal aborted, nothing more is published |
| DeepThink.DeepThinkEngine.ReplaySynthesisCallbacks | prisma/hooks/useDeepThink.ts:244-249 | after the callbacks, the output and thoughts are the concatenated texts and thoughts received, or unchanged when none was received |
| DeepThink.DeepThinkEngine.HandleFailure | prisma/hooks/useDeepThink.ts:257-264 | after a throw, one poll: idle and an end time are published unless the signal is aborted, in which case nothing changes; the signal is set only by an outside abort |
| DeepThink.DeepThinkEngine.ReleaseController | prisma/hooks/useDeepThink.ts:265-267 | the corrected `finally`, used only by `OverlappingRuns`: the controller is forgotten only when it is still this run's own |
| DeepThink.DeepThinkEngine.ReleaseControllerAsWritten | prisma/hooks/useDeepThink.ts:265-267 | the `finally` as written: whatever controller is current is forgotten |
| DeepThink.DeepThinkEngine.OverlappingRunsAsWritten | prisma/hooks/useDeepThink.ts:265-267 | with the `finally` as written, a stop after an older run's `finally` leaves the newer run's signal clear |
| DeepThink.DeepThinkEngine.OverlappingRuns | prisma/hooks/useDeepThink.ts:265-267 | with the corrected `finally`, the same stop aborts the newer run |
| DeepThink.DeepThinkEngine.RunExpertLifecycle | prisma/hooks/useDeepThink.ts:47-118 | a signal already aborted returns the expert and changes nothing. Otherwise only slot `index` changes: it becomes thinking with a start time and holds the streamed text and thoughts. It becomes completed when the stream ended, or failed when the call or stream threw with the signal clear. An abort seen at the end leaves it thinking. The deltas are those of the requested stream. The signal is set only by an outside abort, and with it clear the slot is exactly what the request's outcome settles |
| DeepThink.DeepThinkEngine.ReplayCallbacks | prisma/hooks/useDeepThink.ts:69-90 | after the callbacks only slot `index` has changed, and it holds the concatenated texts and thoughts received |
| DeepThink.DeepThinkEngine.SettleExpert | prisma/hooks/useDeepThink.ts:93-116 | after the stream, one poll: aborted leaves the slot as it is; otherwise the slot is marked completed when the stream ended, or failed with the failure text when it threw, with the end time; the signal is set only by an outside abort |

## Left out

- SDK requests: the system prompt of the planning call (`MANAGER_SYSTEM_PROMPT`), its response schema and MIME type, and the thinking configuration of every request are constant parts of a request. They are not represented; only the parts that depend on the inputs are.
- `getAI`, `getThinkingBudget`, `cleanJsonString`, `JSON.parse` and `withRetry` are code outside the engine. They are parameters: the budgets, `clean`, `parse`, and the retried start `initiate`. `cleanJsonString` is assumed not to throw.
- Concurrency: the primary lifecycle running alongside the planning call, `Promise.all`, and an abort landing at an arbitrary moment are modelled as one sequential order, with the abort seen from a chosen poll on. Each lifecycle writes only its own slot, so while no stop lands and the planning call does not throw, the order of slot writes does not change the slots. When a stop lands or the planning call throws, the sequential order differs from the source in three ways:
  - Entry checks: in the source, every lifecycle's entry check runs synchronously while the signal is known to be clear. The primary's runs right after its controller is created (prisma/hooks/useDeepThink.ts:132, 171). The supplementary ones run right after the check at line 193 (lines 213-223). So no expert of the source stays pending. In the model, a stop that lands before a later lifecycle's entry poll leaves that expert pending.
  - Abandoned primary: in the source, experts_working can be published while the primary lifecycle is still streaming, so a stop can abandon the primary after the plan is published. In the model, the primary has settled or been abandoned before the planning result is looked at.
  - Thrown planning call: the SDK call of the planning step stands before its `try` (prisma/services/deepThink/manager.ts:34-46, 51), so when it throws, `await managerTask` (prisma/hooks/useDeepThink.ts:191) rejects while the primary lifecycle (line 171) may still be streaming. The `catch` publishes idle (lines 257-264) and the `finally` forgets the controller (lines 265-267), but the primary is neither cancelled nor awaited. It goes on writing slot 0 of whatever array `expertsDataRef.current` holds (lines 60-116); once a new run has reached line 165, that is the new run's primary, and no stop can reach the old lifecycle. `DeepThink.DeepThinkEngine.ThrownPlanOutcome` and `DeepThink.DeepThinkEngine.StartRun` follow the model's order, in which the primary has settled before the planning result is looked at, so the model has no such late write.
  - The stop's own writes: `stopDeepThink` itself publishes idle and the end time (prisma/hooks/useDeepThink.ts:30-31). The clauses that tie the end time and the completed or idle state to a clear signal describe only the run's own writes. The stop's writes are those of `StopDeepThink`, which is modelled on its own and not interleaved with a run.
- React: the copies passed to `setExperts` and the batching of state updates are not modelled; `experts` and `expertsDataRef` are one field.
- `console` logging is not modelled.
- `Date.now()` is a counter, and durations are not modelled.
- A number's text is given as `Number.shown`, because floating-point printing is not modelled.
- DeepThink.GeneratedExpert: keys of a plan element other than `role`, `description`, `temperature`, `prompt`, `content` and `thoughts` are not carried over. A payload that held a start or end time, or `thoughtProcess`, would have them copied by the spread.
- `ExpertResult.thoughtProcess` is never written by the engine and is not represented.
- Js.JsonText: a parsed object with its own `toString` key, such as the plan element `{"role": {"toString": 0}}`, makes a template literal throw a `TypeError` in JavaScript, because neither its `toString` nor its `valueOf` yields a primitive; `join` throws the same way for such an object inside an array. The model prints every object as `[object Object]`. In the source the throw happens while an expert's system instruction is built (prisma/services/deepThink/expert.ts:17) or while the synthesis prompt is built (prisma/services/deepThink/synthesis.ts:15). When the object is the role, the `catch` at prisma/hooks/useDeepThink.ts:106 throws again, the panel's `Promise.all` rejects, and the run publishes idle right after experts_working, a trace that `DeepThink.EveryRunTraceListed` does not list. The model thus assumes that the plan's values are strings, numbers and objects without such a key, as the response schema asks.
- DeepThink.DeepThinkEngine.StartRun: the run ends with the `finally` as written (`ReleaseControllerAsWritten`), so it can forget a newer run's controller. `OverlappingRunsAsWritten` shows the consequence, and `OverlappingRuns` the corrected behaviour, which the run itself does not use.
- The application shell (`App.tsx`, session persistence, thinking-level clamping), the settings modal, the message view and the SDK client wrapper are not part of this model.

## Findings

| source | as written | input that shows it | evidently intended | confidence | as-written member | corrected member |
|---|---|---|---|---|---|---|
| prisma/hooks/useDeepThink.ts:265-267 | the `finally` of every run sets `abortControllerRef.current = null`, even when a newer run has installed its own controller | run A starts; run B starts (aborting A); A's pending step resolves, so A returns through its `finally`; the user presses stop. The stop finds no controller, so B is not aborted and goes on publishing states after the idle | a run forgets the controller only if it is still its own, so the stop aborts B | not executed | DeepThink.DeepThinkEngine.OverlappingRunsAsWritten | DeepThink.DeepThinkEngine.OverlappingRuns |
