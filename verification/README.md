# A verified model of the kiliax agent core

This project models three connected parts of kiliax and proves what they promise.

**The event-sourced session store.** A session is an append-only log of events. Its state is the fold of
that log (`SessionModel`), kept as bytes with an abstract line codec (`EventLog`). `SessionStore` has the store as a
class that appends, applies, writes the meta file and the snapshot, and that loads from a snapshot and the rest of
the log. A ghost set records every disk that a crash could have left behind, and an invariant says that each of
them loads to the fold of the completely written events. `MessagePages` and `PageRefinement` have the
page reader, which walks the same bytes backwards in blocks and stops early, and prove when its pages are those of the
forward fold. `SessionFields` reads the other fields of the fold off the positions of the log's events: errors and
finish reasons, goals with their usage, checkpoints.

**The history pipeline.** `History` and `HistoryConservation` have the repair that pairs tool calls with tool
results, and what it keeps.
`Compaction` has the summarising loop that drops the oldest item while the model says the history is too long.
`MiddleTruncation` and `CompactedHistory` have the UTF-8-aware cut in the middle of a text and the selection of the
newest user texts within a token budget. `AnthropicRequest` turns a history into wire messages, `WireContent` says what these
hold, and `ToolNames` has the renaming of tools on the wire. The proofs compose:
whatever the input, what is repaired, shortened, dropped from and converted pairs every tool use with its result.

**The agent step machine.** `ToolGroups` groups the tool calls of a step and runs a group in any completion order.
`AgentModel` says what a run comes to without any parallelism, and which failed tool a streaming run names;
`RunHistory` says what its requests hold and how it ends, from the replies and the tool outcomes alone.
`EventGrammar` has an automaton for the event stream and what every stream it accepts satisfies. `AgentRun` has the
collecting and the streaming step loop, both proved to be runs of that reference. `Retry` has the retry policy and the
loop that shares one attempt counter.
`AnthropicStream` demultiplexes interleaved content blocks; `StreamCapture` captures a stream's texts under one byte
budget.

Rust `char` and Dafny `char` are both Unicode scalar values; byte lengths are computed from the UTF-8 length of each
(section 3 of RFC 3629). Machine integers are subset types, with saturation written out where the code has it.

## What the code does where it differs from what one might expect

* **Unknown truncations.** Replay ignores a `TruncateAfter` that names no live message
  (`crates/kiliax-core/src/session.rs:1084`); the page reader applies its number as a cutoff all the same
  (`crates/kiliax-core/src/session.rs:970-976`). `UnknownTruncationHidesHistory` is an input on which a reply that
  replay keeps is missing from every page. `PagesAgreeIffHarmless` says exactly for which logs all pages
  agree: no truncation names a number below a live displayable message recorded before it.
* **Torn tails.** After a crash in the middle of an append, `load` ignores the unparsable unterminated last line, but
  the page reader reports an error as long as the line is there (`CutPageFailsIff`). A cut inside a UTF-8 character
  makes `load` fail too, because the line reader rejects it before the parser sees it; this is the only way in which
  a crashed append can make it fail (`CutLoadsIff`).
* **Recording after a torn append.** The next event is appended to whatever the crash left, so that a torn or merely
  unterminated line and the new one become one terminated line that does not decode, and no load ever succeeds again
  (`NeverLoadsAgain`). `LoadRecordLoadIff` says that crash, load, record, load works if and only if the crash left
  nothing of the interrupted line or all of it with its newline.
* **Goal mode.** Transient failures are retried without bound, yet after four of them the first rate limit ends the
  step, since all kinds share the counter (`GoalModeUnbounded`, `GoalModeRateLimitShared`). `StepEndsIff` says exactly
  at which call a step ends.
* **Fail-fast streaming.** The streaming loop names the first denied tool of a group or else the first to fail, the
  collecting loop the first failure in call order. `NamesMayDiffer` is an input on which they differ;
  `NamesAgreeIff` and, for whole runs, `OutcomesAgreeIff` say exactly when they name the same tool whatever the
  completion order: the first denial is the first failure, or nothing is denied and all failing tools give the same
  error.
* **Tool names.** The renaming of `web_search` on the wire is undone for every name but `kiliax_web_search`, which comes
  back as `web_search` (`NamesRoundTripIff`).

## Hypotheses

`Faithful` states what the page and crash theorems need of the line codec: an encoded event has no newline (compact
JSON, section 7 of RFC 8259), decodes to itself, no proper prefix of it but the empty one decodes or is blank, an empty
line is blank, and a carriage return at the end of a line is trimmed. `LinesDoNotJoin` adds that an object that is cut
short, or left without its newline, does not decode together with the next one. `Increasing` says that sequence
numbers start at one and increase, which `record_event` guarantees. `Sensible` says that what arrives before a reply
are deltas and that calls run together finish in some order, each once.

## Model

| member | source | states |
|---|---|---|
| SessionStore.SessionState.ApplyEvent | crates/kiliax-core/src/session.rs:1036-1128 | updating the fields in place gives exactly the folded state, for every event kind |
| SessionModel.ApplyInvariant | crates/kiliax-core/src/session.rs:1036-1128 | an event with a new number keeps ids and messages equally long, ids increasing and at most the last number, and the count equal to the length |
| SessionModel.ReplayInvariant | crates/kiliax-core/src/session.rs:1036-1128 | the same for the state of every log with increasing numbers, whose last number is the state's |
| SessionModel.CheckpointBaseLive | crates/kiliax-core/src/session.rs:1087-1098 | if every checkpoint names a live message when recorded, the surviving checkpoint's base is live in every reachable state |
| SessionModel.ApplyDurable | crates/kiliax-core/src/session.rs:1115-1127 | what an event does to everything but the goal's wall-clock stamp does not depend on that stamp or on the clock |
| SessionFields.LastErrorIs | crates/kiliax-core/src/session.rs:1099-1105 | the error of the fold is that of the last Error event that no later effective truncation follows |
| SessionFields.NoError | crates/kiliax-core/src/session.rs:1080-1105 | without such an event there is none |
| SessionFields.LastFinishIs | crates/kiliax-core/src/session.rs:1099-1105 | the finish reason of the fold is that of the last Finish event that no later effective truncation follows |
| SessionFields.NoFinish | crates/kiliax-core/src/session.rs:1080-1105 | without such an event there is none |
| SessionFields.CheckpointIs | crates/kiliax-core/src/session.rs:1080-1101 | the checkpoint of the fold is the last one recorded, unless a later effective truncation names its base or an older message |
| SessionFields.NoCheckpoint | crates/kiliax-core/src/session.rs:1099-1101 | without a recorded one there is none |
| SessionFields.GoalIs | crates/kiliax-core/src/session.rs:1106-1127 | the goal of the fold is that of the last event to set, complete or clear it, with seconds and tokens each raised by the saturating sum of all later usage |
| SessionFields.NoGoal | crates/kiliax-core/src/session.rs:1106-1127 | without such an event there is none, whatever the usage |
| SessionFields.SetOrNever | crates/kiliax-core/src/session.rs:1036-1128 | for every log and each of these fields one of the two laws applies |
| SessionFields.GoalStamped | crates/kiliax-core/src/session.rs:1106-1127 | after a replay the goal carries the stamp it was set with or, when usage was counted last, the clock at which the replay counted it |
| EventLog.LinesFromTheBack | crates/kiliax-core/src/session.rs:543-560 | cutting a file at its last newline takes exactly its last line off the lines read from the front |
| EventLog.ReplayHeldFile | crates/kiliax-core/src/session.rs:837-889 | the line reader applies exactly the completely written events past the snapshot, even with a torn or unterminated last line |
| EventLog.TornCharacterFailsReplay | crates/kiliax-core/src/session.rs:851-860 | a tail that ends inside a character makes the replay fail |
| EventLog.MalformedLineFailsReplay | crates/kiliax-core/src/session.rs:862-872 | a terminated line that does not decode makes the replay fail, whatever follows |
| EventLog.SnapshotPlusReplay | crates/kiliax-core/src/session.rs:450-496 | the state after any prefix of the log, with the later events applied, is the fold of the whole log |
| SessionStore.RecoverableLoads | crates/kiliax-core/src/session.rs:450-496 | from every recoverable disk a load returns the fold of every completely written event |
| SessionStore.MismatchedSnapshotRebuilds | crates/kiliax-core/src/session.rs:462-488 | a snapshot whose ids and messages differ in length is rebuilt from the whole log, with the same result and a fresh valid snapshot |
| SessionStore.AppendIsCrashSafe | crates/kiliax-core/src/session.rs:891-908 | every disk that an interrupted append can leave is recoverable, for the log with or without the new event |
| SessionStore.EveryAppendCrashLoads | crates/kiliax-core/src/session.rs:804-835 | loading after such a crash yields the fold of the old log or of the old log and the event, nothing else |
| SessionStore.CutLoadsIff | crates/kiliax-core/src/session.rs:851-889 | for every byte an append may stop at, a load succeeds if and only if no character was cut, and then with every completely written event |
| SessionStore.NeverLoadsAgain | crates/kiliax-core/src/session.rs:862-908 | once an event is appended to a torn or unterminated line, every load fails, whatever is appended later and whichever snapshot there is |
| SessionStore.LoadRecordLoadIff | crates/kiliax-core/src/session.rs:837-908 | after crash, load and record the next load succeeds if and only if the crash left nothing of its line or all of it with the newline, and then brings back every event |
| SessionStore.FileSessionStore.Create | crates/kiliax-core/src/session.rs:360-448 | one message event per initial message; the returned state is the fold of the log and the disk is recoverable |
| SessionStore.FileSessionStore.AppendEventLine | crates/kiliax-core/src/session.rs:891-908 | whatever the file holds, exactly the encoded line and a newline are added; on an intact store all its crash points are recoverable |
| SessionStore.FileSessionStore.RecordEvent | crates/kiliax-core/src/session.rs:804-835 | whatever the file holds: the event with the next number is appended and applied, meta is written, and a snapshot when due; the crash points are those of the append, of the meta write and of the two writes of a checkpoint; on an intact store the state stays the fold of the log with its invariants, all crash points stay recoverable, and fewer than `checkpoint_every` events have passed since the snapshot |
| SessionStore.FileSessionStore.Checkpoint | crates/kiliax-core/src/session.rs:790-802 | snapshot, then meta, hold the marked state and nothing else changes; the crash points are the disks after each of the two writes; an intact store stays intact |
| SessionStore.FileSessionStore.ReplayEventsAfterSnapshot | crates/kiliax-core/src/session.rs:837-889 | the loop over lines computes the specified replay, errors included |
| SessionStore.FileSessionStore.Load | crates/kiliax-core/src/session.rs:450-496 | the specified state or error; the disk changes only when the snapshot is rebuilt; from an intact store it always succeeds with the fold of the log |
| SessionStore.PageScan.HandleRaw | crates/kiliax-core/src/session.rs:951-1016 | handling one raw line in place computes the specified scan step, errors included |
| SessionStore.FileSessionStore.ScanBlock | crates/kiliax-core/src/session.rs:541-571 | the lines completed by a block are handled last one first, and scanning what is carried over finishes the job |
| SessionStore.FileSessionStore.ScanBlocks | crates/kiliax-core/src/session.rs:522-572 | for every block size of at least one the blocks amount to one scan of the file from the back |
| SessionStore.FileSessionStore.ReadMessagePage | crates/kiliax-core/src/session.rs:498-602 | the page is that of the whole-file scan, whatever the block size; on an intact store with harmless truncations it holds the last `max(limit, 1)` live messages a user should see, below the cursor if there is one, with a cursor exactly when there are older ones |
| MessagePages.LinesHandledInReverse | crates/kiliax-core/src/session.rs:528-585 | the scan handles exactly the non-blank lines of the file in reverse order, up to the early exit |
| MessagePages.HandleLineResolves | crates/kiliax-core/src/session.rs:951-1016 | remembering later edits and the least later cutoff resolves each older message as the later events would |
| MessagePages.ScanLogPage | crates/kiliax-core/src/session.rs:587-601 | after `limit + 1` hits at most, the page is the last page of the history the scan sees, with a cursor exactly when something older is visible |
| PageRefinement.CutIsSparedLive | crates/kiliax-core/src/session.rs:970-976 | the history the backward scan sees is the folded one without what a later truncation cuts by number |
| PageRefinement.PageRefinesReplay | crates/kiliax-core/src/session.rs:498-602 | with harmless truncations the page holds exactly the newest `limit` displayable messages of the folded state below the cursor, edits applied, in order |
| PageRefinement.PagesAgreeIffHarmless | crates/kiliax-core/src/session.rs:951-1034 | all pages agree with the fold if and only if every truncation is harmless |
| PageRefinement.DisplayedIffShown | crates/kiliax-core/src/session.rs:1022-1034 | displayed are assistant and tool messages and those user messages that are not hidden and whose first text is no summary |
| PageRefinement.LiveTruncationsHarmless | crates/kiliax-core/src/session.rs:1080-1098 | a truncation that names a live message is harmless |
| PageRefinement.UnknownTruncationHidesHistory | crates/kiliax-core/src/session.rs:970-976 | an input on which an unknown truncation hides a message that the fold keeps |
| PageRefinement.TornTailFailsPage | crates/kiliax-core/src/session.rs:951-966 | on every file a crashed append can leave and load accepts, the page reader fails if and only if the last line does not parse; otherwise it returns the pages of the complete events |
| PageRefinement.CutPageFailsIff | crates/kiliax-core/src/session.rs:951-966 | for every byte an append may stop at, the page reader fails if and only if some but not all of the line was written |
| PageRefinement.PagesCoverScannedHistory | crates/kiliax-core/src/session.rs:587-601 | for every log, following the cursors of pages read from the file ends, and the pages together are, without gap or repeat, the visible history without what a later truncation cuts by number |
| PageRefinement.PagesCoverEverythingOnce | crates/kiliax-core/src/session.rs:587-601 | with harmless truncations that is the whole visible history of the fold |
| PageRefinement.PagesFromTheEnd | crates/kiliax-core/src/session.rs:498-602 | starting without a cursor, the pages together are every live message a user should see |
| History.Sanitize | crates/kiliax-core/src/history.rs:30-111 | the in-place repair, with its fast path, equals the specified repair and report |
| History.PairResults | crates/kiliax-core/src/history.rs:62-92 | emptying slots in place gives each call the oldest result left for its id, or a repair message |
| History.RepairIsWellFormed | crates/kiliax-core/src/history.rs:43-107 | every repaired history has each assistant with calls directly followed by exactly its results in call order, no other tool message and no empty assistant |
| History.WellFormedUntouched | crates/kiliax-core/src/history.rs:30-41 | a well-formed history comes back unchanged with an all-zero report |
| History.SanitizeIdempotent | crates/kiliax-core/src/history.rs:30-111 | repairing twice changes nothing, and a history is left alone if and only if it is well formed |
| HistoryConservation.PairPerId | crates/kiliax-core/src/history.rs:62-92 | for every id: the expected number of results in order of arrival, topped up with exactly the missing repairs, the rest left over |
| HistoryConservation.RepairConserves | crates/kiliax-core/src/history.rs:10-107 | all messages but tools and empty assistants keep their order; tools out are tools in minus dropped plus inserted; every empty assistant is counted |
| HistoryConservation.RepairKeepsResults | crates/kiliax-core/src/history.rs:43-107 | the assistants with calls survive in order, and for each and every id the results right after it are the first of its results in the input, in order, up to the number of its calls, then exactly as many repairs as are missing |
| HistoryConservation.UnchangedMeansPermutation | crates/kiliax-core/src/history.rs:10-16 | a report without changes means that the output is a permutation of the input |
| Compaction.PrepareMessages | crates/kiliax-core/src/compact.rs:318-335 | repair, then shorten tool outputs in place; the result is well formed |
| Compaction.ShortenedWellFormed | crates/kiliax-core/src/compact.rs:325-335 | changing only tool outputs keeps every pairing |
| Compaction.ShortenedMessage | crates/kiliax-core/src/compact.rs:325-335 | a tool output of at most 16,000 bytes stays, as does every other message; a longer one keeps its longest ends of at most 8,000 bytes around the marker |
| Compaction.DropOldestItem | crates/kiliax-core/src/compact.rs:337-392 | the removals in place equal the specified drop; nothing changes when there is nothing to drop |
| Compaction.DropKeepsPreamble | crates/kiliax-core/src/compact.rs:337-392 | from any history a drop leaves all system and developer messages and strictly shrinks the list; it fails only when nothing else is left |
| Compaction.DropKeepsWellFormed | crates/kiliax-core/src/compact.rs:337-380 | from a well-formed history a drop removes exactly one message and its results, and the rest is well formed |
| Compaction.DroppedWellFormed | crates/kiliax-core/src/compact.rs:289-316 | any number of drops keeps pairing and preamble and removes at least one message each |
| Compaction.SentWellFormed | crates/kiliax-core/src/compact.rs:289-316 | every request of the loop is well formed, keeps the preamble and ends with the prompt |
| Compaction.SummariseWithRetries | crates/kiliax-core/src/compact.rs:293-315 | the n-th request is the history after n drops; at most one call more than there are other messages, for any answers; it ends at the first other answer or when nothing can be dropped, with the summary answered or the failure |
| Compaction.RunCompaction | crates/kiliax-core/src/compact.rs:289-335 | the same from any history |
| MiddleTruncation.CutPoints | crates/kiliax-core/src/compact.rs:243-265 | one pass over the characters finds the longest prefix and suffix within their shares; the guard for overlapping ends never fires |
| MiddleTruncation.TruncationExact | crates/kiliax-core/src/compact.rs:224-274 | a text over a positive budget keeps the longest prefix within half of it and the longest suffix within the rest, with the excess in tokens between |
| MiddleTruncation.TruncationLoss | crates/kiliax-core/src/compact.rs:224-274 | the kept ends do not overlap, stay within the budget and lose at most three bytes each |
| MiddleTruncation.TruncatedText | crates/kiliax-core/src/compact.rs:224-274 | the text that comes out: the input when it fits, the marker alone without a budget, else longest prefix, marker with the excess in tokens, longest suffix |
| MiddleTruncation.DecimalReads | crates/kiliax-core/src/compact.rs:224-274 | the number in the marker is written in decimal digits without leading zeros |
| MiddleTruncation.TokensRoundUpIff | crates/kiliax-core/src/compact.rs:39-52 | a token count is the least number of four-byte tokens that holds the text, exactly up to the length at which the sum saturates |
| MiddleTruncation.TruncateMiddle | crates/kiliax-core/src/compact.rs:224-274 | the method renders the specified cut, empty texts and zero budgets included |
| CompactedHistory.SelectNewest | crates/kiliax-core/src/compact.rs:189-210 | the loop from the newest text backwards gives the specified selection in the old order |
| CompactedHistory.SelectedIsSuffix | crates/kiliax-core/src/compact.rs:189-210 | the selection is a maximal newest suffix that fits, with at most one cut older text in front |
| CompactedHistory.BudgetRespected | crates/kiliax-core/src/compact.rs:183-222 | at most 80,000 bytes of user text are kept, the marker aside |
| CompactedHistory.BuildCompactedUserHistory | crates/kiliax-core/src/compact.rs:183-222 | the selected texts that are not blank become user messages, and the prefix, a newline and the summary follow as the last one |
| CompactedHistory.RebuildsEach | crates/kiliax-core/src/compact.rs:207-216 | each selected text becomes a visible user message where it stands, unless it is blank |
| CompactedHistory.CollectRealUserTexts | crates/kiliax-core/src/compact.rs:137-181 | exactly the visible user texts that are neither blank nor summaries, trimmed, in order |
| CompactedHistory.CollectsEach | crates/kiliax-core/src/compact.rs:137-157 | from each message, where it stands, collecting takes the text of a visible user message without the white space around it, unless it is blank or starts with the summary prefix and a newline; nothing from any other |
| CompactedHistory.ContentReads | crates/kiliax-core/src/compact.rs:159-181 | parts read as their texts that are not blank, joined by newlines, and as an image when there is none |
| CompactedHistory.CompactedRoundTrip | crates/kiliax-core/src/compact.rs:126-222 | when all texts fit, collecting from the compacted history gives them back, and the last message is recognised as a summary |
| AnthropicRequest.ToAnthropicRequest | crates/kiliax-llm/src/anthropic.rs:479-600 | the loop gives the specified system parts and wire messages, or the first error in history order |
| AnthropicRequest.WellFormedPairsOnWire | crates/kiliax-llm/src/anthropic.rs:494-581 | from a well-formed history each assistant message with tool uses is followed by one user message whose results answer them in order, and there is no other result |
| AnthropicRequest.ConversionSucceedsIff | crates/kiliax-llm/src/anthropic.rs:494-581 | the messages of a well-formed history convert if and only if its user contents and its tool arguments do |
| AnthropicRequest.RequestSucceedsIff | crates/kiliax-llm/src/anthropic.rs:479-600 | a well-formed history makes a request if and only if, besides, it holds more than system and developer messages |
| AnthropicRequest.NeverEmptyAssistant | crates/kiliax-llm/src/anthropic.rs:540-552 | the rejection of empty assistant messages is unreachable from a well-formed history |
| AnthropicRequest.WireCarriesCallsAndResults | crates/kiliax-llm/src/anthropic.rs:494-581 | every call and every result of any converted history is on the wire once, in order |
| WireContent.WireConveysTurns | crates/kiliax-llm/src/anthropic.rs:494-581 | a converted history is its turns in order: each user or assistant message and each run of results one wire message with everything it says, thinking before text before tool uses, under its wire name |
| WireContent.RequestConveys | crates/kiliax-llm/src/anthropic.rs:479-600 | a request conveys every turn, and its system text is that of all system and developer messages in order, separated by blank lines |
| WireContent.UserConvertsIff | crates/kiliax-llm/src/anthropic.rs:666-712 | user content converts if and only if it says something, every image loads and every file is valid |
| ToolNames.NamesRoundTripIff | crates/kiliax-llm/src/tool_names.rs:6-18 | a name sent and read back is the same if and only if it is not `kiliax_web_search`; nothing is sent as `web_search` |
| AnthropicRequest.PipelinePairsOnWire | crates/kiliax-core/src/compact.rs:318-392 | repaired, shortened and dropped from as often as the compaction loop does, any history pairs on the wire |
| AnthropicRequest.SentPairsOnWire | crates/kiliax-core/src/compact.rs:289-335 | every request the compaction loop sends, prompt included, pairs on the wire, whatever the history |
| AnthropicRequest.RunPairsOnWire | crates/kiliax-core/src/runtime.rs:305-323 | every request of an agent run pairs on the wire |
| ToolGroups.GroupToolCalls | crates/kiliax-core/src/runtime/tool_calls.rs:10-32 | the scan gives the specified groups |
| ToolGroups.GroupingKeepsCalls | crates/kiliax-core/src/runtime/tool_calls.rs:10-32 | the groups hold every call once, in order |
| ToolGroups.GroupingExact | crates/kiliax-core/src/runtime/tool_calls.rs:10-32 | parallel groups are not empty, hold parallel tools only and are as long as they can be; every other tool is alone |
| ToolGroups.RunParallel | crates/kiliax-core/src/runtime.rs:426-480 | for every completion order the messages of a group are appended in call order, and fail-fast reports the first failure in call order |
| ToolGroups.StreamParallel | crates/kiliax-core/src/runtime.rs:807-922 | for every completion order the same messages are appended in call order and what is sent is a permutation of them; fail-fast names the first denial, else the first task to fail, and what was sent by then is part of what the calls add |
| ToolGroups.FailsAlike | crates/kiliax-core/src/runtime.rs:426-480 | for every completion order a streaming group fails if and only if the collecting one does |
| ToolGroups.NamesMayDiffer | crates/kiliax-core/src/runtime.rs:807-922 | two failing calls and a completion order for which the two loops name different tools |
| ToolGroups.NamesAgreeIff | crates/kiliax-core/src/runtime.rs:807-922 | both loops name the same tool under every completion order if and only if the first denial is the first failure, or nothing is denied and all failing calls give the same error |
| AgentModel.GroupwiseIsCallwise | crates/kiliax-core/src/runtime.rs:400-480 | running group after group adds the messages, and finds the first failure, of running call after call |
| AgentModel.RequestsWellFormed | crates/kiliax-core/src/runtime.rs:305-323 | every request of a run is well formed, and there are at most as many as steps |
| RunHistory.StepHandsOn | crates/kiliax-core/src/runtime.rs:295-489 | a step whose calls end nothing hands on its request, the reply and the results in call order; any other ends the run as its reply, or its first failed call, says |
| RunHistory.RunIsChained | crates/kiliax-core/src/runtime.rs:295-489 | the first request is the prepared history, each later one is what the step before it handed on, prepared; the run ends as its last reply says, or because no step is left |
| RunHistory.RunAppends | crates/kiliax-core/src/runtime.rs:295-489 | without compaction, from a well-formed history and with one result for each call, each later request is exactly the one before it, the reply and its results |
| AgentModel.StreamedAlike | crates/kiliax-core/src/runtime.rs:295-968 | a streaming run comes to what the sequential one does, and only in fail-fast mode may the failed tool named differ |
| AgentModel.OutcomesAgreeIff | crates/kiliax-core/src/runtime.rs:295-968 | the outcomes of a streaming and a collecting run are equal under all completion orders if and only if the names agree in the group whose failure ends the run |
| AgentRun.RunStep | crates/kiliax-core/src/runtime.rs:295-489 | one collecting step sends the sequential step's request and does what running its calls one after the other would do |
| AgentRun.Run | crates/kiliax-core/src/runtime.rs:295-489 | requests and outcome of a run are those of the sequential one, whatever the completion orders |
| AgentRun.StreamStep | crates/kiliax-core/src/runtime.rs:526-966 | a streaming step sends the same request, comes to the same, and takes the stream from the start of the step to the next one or to its end |
| AgentRun.RunStream | crates/kiliax-core/src/runtime.rs:491-968 | the events follow the grammar to its end and end with the outcome; requests are the sequential run's, and so is the outcome, but for the tool a fail-fast run names, which is the first denied or first to fail of its group |
| AgentRun.StreamGroups | crates/kiliax-core/src/runtime.rs:655-930 | the loop over groups keeps the sequential messages; its events take the stream through every group with nothing owed, or to a failed call of the group that ends it |
| EventGrammar.AfterGroup | crates/kiliax-core/src/runtime.rs:690-922 | a group's calls and some of the messages they add, in any order, are accepted and leave exactly the others owed |
| EventGrammar.CallsInOrder | crates/kiliax-core/src/runtime.rs:655-735 | the calls in an accepted stream are those of the earlier steps, in order, followed by as many of the current step's as its phase says |
| EventGrammar.ResultsFollowCalls | crates/kiliax-core/src/runtime.rs:655-930 | at every point of every accepted stream the results sent and those the running group still owes are exactly what the calls of the groups announced so far add: none before its call, none missing, repeated or foreign |
| EventGrammar.EndedStreamReportsAll | crates/kiliax-core/src/runtime.rs:526-966 | an ended stream, unless a failed tool ended it, holds exactly the messages that the calls of its steps add, in some order |
| EventGrammar.GrammarOrdersSteps | crates/kiliax-core/src/runtime.rs:526-966 | in every accepted stream the steps started are 1, 2, 3, ... and at most `max_steps` |
| EventGrammar.RepliesInOrder | crates/kiliax-core/src/runtime.rs:526-966 | in every accepted stream the assistant messages are the replies of the first steps, and step ends are 1, 2, 3, ..., each after its reply and before the next step |
| EventGrammar.DeltasInOrder | crates/kiliax-core/src/runtime.rs:526-966 | the deltas are those of the steps started, in order, but for what is still to come of the current one |
| EventGrammar.EndsOnce | crates/kiliax-core/src/runtime.rs:526-966 | in every accepted stream an end comes last only |
| Retry.DelayBounded | crates/kiliax-llm/src/lib.rs:244-258 | no delay exceeds the cap of its kind by more than 249 ms |
| Retry.DelayDoubles | crates/kiliax-llm/src/lib.rs:244-258 | a delay without its jitter starts at its base and doubles with each attempt up to its cap |
| Retry.DriveStepWithRetry | crates/kiliax-core/src/runtime.rs:1036-1085 | the loop gives the specified calls, waits, retry events and result, for every sequence of outcomes |
| Retry.RunModeBounded | crates/kiliax-core/src/runtime.rs:1044-1084 | in run mode a step makes at most five calls and sleeps at most 21,370 ms, however the failures mix, and five turns end it |
| Retry.RunModeBoundAttained | crates/kiliax-llm/src/lib.rs:208-258 | both bounds are met by one sequence |
| Retry.AttemptsConsecutive | crates/kiliax-core/src/runtime.rs:1044-1084 | the n-th retry event carries number n, whatever kinds came before |
| Retry.StepAccounted | crates/kiliax-core/src/runtime.rs:1036-1136 | every step announces each retry with the kind, number, limit and delay of the call it follows, one event per call that another follows and one for a cancelled wait, and sleeps exactly those delays, cut short where it was woken |
| Retry.GoalModeUnbounded | crates/kiliax-llm/src/lib.rs:208-242 | in goal mode any mix of transient failures, each waited out, is retried as often as it occurs |
| Retry.StepEndsIff | crates/kiliax-core/src/runtime.rs:1044-1136 | in both modes a step ends at its n-th call if and only if that is the first whose failure is not retried at n, by the kinds' limits stated outright, or whose wait is cancelled or loses its receiver |
| Retry.GoalModeRateLimitShared | crates/kiliax-llm/src/lib.rs:208-242 | in goal mode four transient failures and then the first rate limit end the step at its fifth call |
| AnthropicStream.AnthropicStreamState.HandleStreamEvent | crates/kiliax-llm/src/anthropic.rs:1010-1188 | updating the maps in place gives the specified state and response, for every event |
| AnthropicStream.AnthropicStreamState.ProviderMetadata | crates/kiliax-llm/src/anthropic.rs:973-993 | the thinking blocks that are not blank, by ascending index |
| AnthropicStream.ReadStream | crates/kiliax-llm/src/anthropic.rs:234-268 | the chunks of all events before the first that ends the stream, and that event's error |
| AnthropicStream.Demultiplexes | crates/kiliax-llm/src/anthropic.rs:1025-1155 | for every interleaving the calls of an index, and its buffers, are those of its own events alone |
| AnthropicStream.BlockGivesItsCall | crates/kiliax-llm/src/anthropic.rs:1032-1155 | a tool_use block gives one call, at its stop, with its id, the name that its wire name stands for and its pieces in order, or its initial input when they are blank, or `{}` |
| AnthropicStream.OrphanGivesItsCall | crates/kiliax-llm/src/anthropic.rs:1086-1155 | pieces without a start give one call with their text, without id and name |
| AnthropicStream.OncePerOpening | crates/kiliax-llm/src/anthropic.rs:1032-1155 | the calls of an index number exactly its openings, less one if a block is still open |
| AnthropicStream.ThinkingGivesNoCall | crates/kiliax-llm/src/anthropic.rs:1130-1135 | once an index is a thinking block no call comes of it |
| AnthropicStream.OutputConserved | crates/kiliax-llm/src/anthropic.rs:1069-1121 | text and thinking leave in the order they came, nothing lost or repeated |
| AnthropicStream.ThinkingStarts | crates/kiliax-llm/src/anthropic.rs:1051-1067 | a thinking block starts with the text and the signature its start carries; an empty signature is none |
| AnthropicStream.ThinkingCollects | crates/kiliax-llm/src/anthropic.rs:1098-1127 | a thinking block holds what it started with and all thinking and signatures streamed for it since, in order |
| AnthropicStream.MetadataTells | crates/kiliax-llm/src/anthropic.rs:973-993 | the metadata is one block per index whose thinking is not blank, by ascending index, with its text and signature, or absent when there is none |
| AnthropicStream.MessageHolds | crates/kiliax-llm/src/anthropic.rs:1016-1024 | identity, model and usage are those of the start of the message, with the output count of the last delta that has one |
| AnthropicStream.DeltaReports | crates/kiliax-llm/src/anthropic.rs:1156-1185 | a message delta with a stop reason reports it, translated, with the usage held |
| AnthropicStream.ChunksNameTheMessage | crates/kiliax-llm/src/anthropic.rs:994-1009 | every chunk names the message held and carries the metadata held |
| AnthropicStream.TotalsAddUp | crates/kiliax-llm/src/anthropic.rs:1156-1176 | in every state and every chunk the total is the saturating sum of prompt and completion tokens |
| StreamCapture.StreamOutputCapture.AppendLimited | crates/kiliax-llm/src/telemetry.rs:524-555 | what is appended is all of the text or its longest prefix of whole characters that fits, nothing once truncated |
| StreamCapture.StreamOutputCapture.ObserveChunk | crates/kiliax-llm/src/telemetry.rs:419-471 | observing a chunk in place gives the specified capture |
| StreamCapture.CaptureExact | crates/kiliax-llm/src/telemetry.rs:419-555 | over every chunk sequence the texts are their parts of one prefix: the longest of whole characters, in order of arrival over all texts, that fits the budget |
| StreamCapture.CaptureIdentifies | crates/kiliax-llm/src/telemetry.rs:419-471 | after any chunks the calls are those of the indexes that occurred, each with the last id and the last name given for it |
| StreamCapture.CaptureNotes | crates/kiliax-llm/src/telemetry.rs:419-471 | and the finish reason and the metadata are the last ones given |
| StreamCapture.CaptureBounded | crates/kiliax-llm/src/telemetry.rs:419-555 | counted bytes are those of all texts and within the budget; each text is a prefix of its stream; truncated if and only if the stream exceeds the budget, and then at most three bytes are unused |
| StreamCapture.TruncatedStays | crates/kiliax-llm/src/telemetry.rs:524-555 | once truncated no text and no count changes |

## Left out

- File I/O, fsync, rename and the Windows fallback: appends, meta writes and snapshot writes are disk steps; an append may stop between any two characters, the other two are atomic.
- Concurrent writers, several sessions in one store, listing and deleting sessions.
- A crash during creation: crash safety is stated from the finished creation on.
- JSON: the line codec, the parser of tool arguments and the decoding of stream events are abstract; the lossy UTF-8 decoding of the page reader is part of the abstract parser. Page cursors are numbers, not decimal strings.
- Titles, `updated_at_ms`, prompt cache keys and the project prompt: set outside the log or from the clock. The goal's `updated_at` is modelled, and excluded from state equality because replay stamps it anew.
- SessionStore.FileSessionStore.Load: does not model the writes for a missing prompt cache key or project prompt, which change neither messages nor ids.
- Prompt texts: the summary prefix and the summarising prompt are parameters.
- `estimate_context_tokens` and the automatic compaction handler: whether and how a step's history is compacted is an arbitrary function.
- Tool execution, the permission policy, `drive_stream_step` and `normalize_tool_call_ids`: replies, denials and tool outcomes are arbitrary inputs.
- A receiver that closes while events are sent, task panics, and channels.
- Retry.DriveStepWithRetry: runs over finite scripts of turns; a step that is still retrying when its script ends is `Pending`.
- The rest of an Anthropic request (tools, tool choice, limits, thinking options), image and file loading, and non-streaming responses.
- The Responses API and OpenAI streams, HTTP, telemetry export, configuration, the server, the command line and the web interface.
