# Smart agent core, modelled in Dafny

This project models the in-memory bookkeeping of a conversational "smart
agent". The agent has four parts, one Dafny module each:

- **Reasoning trace** (`reasoning.dfy`, module `Reasoning`). A
  `ReasoningEngine` holds an append-only list of typed thoughts, an optional
  current task and a step list. Every operation appends one thought of a
  fixed kind and confidence, resets the engine, or summarises it. The
  summary gives the thought count, a kind-to-count histogram and the mean
  confidence. A `ReasoningChain` is an ordered registry of engines.
- **Memory** (`memory.dfy`, module `MemoryStore`). A `Memory` keeps two
  record lists: interactions and lessons. Each record's id is derived from
  the list's length. Each list has a search index beside it. An add always
  appends the record, and appends the index entry only when the index stores
  it, so records and index stay in lockstep exactly as long as no index add
  raises. The memory also offers filters,
  statistics, a time-cutoff purge and an import.
- **Tools** (`tools.dfy`, module `Tools`). A `ToolBox` is an
  insertion-ordered registry from tool name to tool. The module also holds
  the decision logic of three tools:
  - the code executor's keyword denylist and its mapping from process
    outcome to result;
  - the file manager's action dispatch over an abstract file system;
  - the data analyser's dispatch on file extension.
- **Orchestrator** (`agent.dfy`, module `Agent`). A `SmartAgent` composes the
  other three. It handles a user request, builds the system prompt and the
  completion prompt, uses tools, learns lessons, summarises the session and
  resets it.

`util.dfy` (module `Util`) holds shared helpers. It models Python's slices
`s[:n]` and `s[-n:]`, list comprehensions with a filter, `str(n)`, and
substring and suffix tests.

Everything outside the process is a parameter:

- the language-model completion service is a function from a
  `CompletionRequest` to a `Completion`, which either succeeds with a text or
  fails with a message;
- the vector index query is a function from a query text and a result count
  to a `QueryAnswer`: columns of ids, documents and metadata, or a raised
  error;
- running a tool is a function from `Tool` to `Invocation`, which either
  returns a result or raises;
- the child process of the code executor is a `ProcessOutcome`;
- the file system is a `FileSystem` value;
- the spreadsheet loader is a function from `DataFormat` to `LoadOutcome`;
- the index's answer to an add is an `IndexAdd`: it stored the entry, or it
  raised;
- the memory file, once read, is an `Option<Snapshot>`;
- the clock is an integer `now`, in seconds.

Message texts are kept structured rather than as formatted strings. The
reasoning engine's message templates are constructors of `Note`, carrying
their arguments. Tool errors are constructors of `ToolError`.

The memory numbers its records by length. After a purge, the next
interaction can therefore get an id that was already issued.
`PurgeThenAddReusesId` proves this for every purge that drops something from interactions still numbered 1..n (no purge or import since they were added).
`PurgedIdStillIndexed` adds that, on a memory whose index was in lockstep,
that id is still held by an index entry, since the purge leaves the index
alone. `PurgeThenAddDuplicatesSnapshotId` shows a two-record instance. The
model keeps this behaviour as written.

## Model

| member | source | states |
|---|---|---|
| Reasoning.RecordDeterminesThought | core/reasoning.py:38-46 | Two thoughts export to the same record exactly when they are the same thought: the export keeps content, kind, justification and confidence. |
| Reasoning.KindCountsSum | core/reasoning.py:179-182 | The five per-kind counts add up to the number of thoughts. |
| Reasoning.SummaryCounts | core/reasoning.py:176-194 | The summary is the "no thoughts" marker exactly when the trace is empty. Otherwise its total is the number of thoughts, and its histogram totals the same number. |
| Reasoning.HistogramCounts | core/reasoning.py:179-182 | A kind is a key of the histogram exactly when some thought has that kind. Its value is the number of thoughts of that kind. |
| Reasoning.CountKindPositive | core/reasoning.py:179-182 | A kind's count is positive exactly when some thought has that kind. |
| Reasoning.ConfidenceSumBounds | core/reasoning.py:184 | When every confidence lies in [0, 1], their sum lies in [0, number of thoughts]. |
| Reasoning.AverageConfidenceBounds | core/reasoning.py:184 | For a non-empty trace whose confidences all lie in [0, 1], the summary's average confidence also lies in [0, 1]. |
| Reasoning.HistogramStep | core/reasoning.py:180-182 | One pass of the counting loop: the histogram of a one-longer prefix is the previous histogram with the new thought's kind incremented. |
| Reasoning.ReasoningEngine.constructor | core/reasoning.py:52-56 | A new engine has no thoughts, no task and no steps. |
| Reasoning.ReasoningEngine.StartTask | core/reasoning.py:58-74 | Whatever the prior state, the task is set, the steps are cleared, and exactly one thought remains: the task's Analysis thought at confidence 0.5. |
| Reasoning.ReasoningEngine.AddThought | core/reasoning.py:76-92 | Appends exactly the given thought at the end and returns it. Earlier thoughts, the task and the steps are unchanged. |
| Reasoning.ReasoningEngine.PlanSteps | core/reasoning.py:94-122 | Sets the steps to the same fixed five-element list whatever count is asked for. Appends one Planning thought that records the requested count. |
| Reasoning.ReasoningEngine.ExecuteStep | core/reasoning.py:124-139 | Appends one Execution thought with confidence 0.9 on success and 0.3 otherwise. |
| Reasoning.ReasoningEngine.EvaluateResult | core/reasoning.py:141-154 | Appends one Evaluation thought whose confidence is the given quality. |
| Reasoning.ReasoningEngine.LearnFromExperience | core/reasoning.py:156-168 | Appends one Learning thought at the default confidence 0.5 that records the lesson and its importance. |
| Reasoning.ReasoningEngine.ThoughtProcess | core/reasoning.py:170-172 | The export has the same length and order as the trace; element i is thought i's record. |
| Reasoning.ReasoningEngine.GetSummary | core/reasoning.py:174-194 | The counting loop yields `Summarize` of the trace: the marker for an empty trace, else task, count, histogram, average confidence, steps and the first and last records. |
| Reasoning.ReasoningEngine.Reset | core/reasoning.py:211-215 | Restores exactly the state of a new engine. |
| Reasoning.ReasoningChain.constructor | core/reasoning.py:221-224 | A new chain has no engines and an empty order. |
| Reasoning.ReasoningChain.AddEngine | core/reasoning.py:226-229 | Registers or replaces the engine under its name. Appends the name to the order even when the name is already there. The order and the registry keep the same set of names. |
| Reasoning.ReasoningChain.ExecuteChain | core/reasoning.py:231-237 | The result has one entry per registered engine: that engine's summary. |
| Reasoning.ReasoningChain.GetChainSummary | core/reasoning.py:239-248 | Reports the number of registered engines, the order as it is, and for every registered name exactly that engine's summary. |
| Reasoning.ChainCountsDistinctNames | core/reasoning.py:239-243 | The reported engine count is the number of distinct names in the order, which is at most the order's length. |
| Reasoning.DistinctNamesBound | core/reasoning.py:229 | The number of distinct names in an order never exceeds the order's length. |
| Reasoning.DuplicateAddKeepsCount | core/reasoning.py:228 | Re-adding a registered name leaves the engine count unchanged. |
| MemoryStore.InteractionIdInjective | core/memory.py:77 | Distinct numbers give distinct interaction ids. |
| MemoryStore.HitsBounded | core/memory.py:156-173 | If the index answers honestly, a search for k hits returns at most max(k, 0) of them. Every hit's id is in the index, and an empty index yields no hits. |
| MemoryStore.Memory.constructor | core/memory.py:17-54 | The snapshot is the loaded one, or empty when nothing could be read. Both indexes start empty; an empty memory is in lockstep and well numbered. |
| MemoryStore.Memory.AddInteraction | core/memory.py:64-102 | Appends exactly one record with the id "interaction_" followed by the old length + 1, before the index is asked. If the index stores the entry, the same id joins the index and is returned. If the index raises, the record stays without an index entry and the error is reported. Lessons are unchanged. Numbering is preserved, and lockstep is preserved exactly when the index stored the entry. |
| MemoryStore.Memory.AddLesson | core/memory.py:104-143 | Appends exactly one lesson, with the id "lesson_" followed by the old length + 1 and the given category and importance. The index entry and the returned id follow only when the index stores it; otherwise the error is reported. Interactions are unchanged. Numbering is preserved, and lockstep exactly when the index stored the entry. |
| MemoryStore.Memory.SearchInteractions | core/memory.py:145-173 | Asks the index for min(n, 10) hits. A raised query or a short column gives no hits. An honest index never yields more than min(n, 10). |
| MemoryStore.Memory.SearchLessons | core/memory.py:175-203 | The same contract as the interaction search, over the lesson index. |
| MemoryStore.Memory.RecentInteractions | core/memory.py:205-207 | Gives the suffix interactions[-n:]. For n > 0 that is the last min(n, length) records in order; n = 0 gives all of them. |
| MemoryStore.Memory.ImportantLessons | core/memory.py:209-214 | An order-preserving subsequence of the lessons holding exactly those whose importance, 0 when missing, reaches the bound, each with all its occurrences: a qualifying lesson appears as often as in the lessons, any other not at all. |
| MemoryStore.Memory.LessonsByCategory | core/memory.py:216-221 | An order-preserving subsequence of the lessons holding exactly those of the given category, each with all its occurrences: a lesson of that category appears as often as in the lessons, any other not at all. |
| MemoryStore.Memory.Stats | core/memory.py:223-233 | The totals equal the two list lengths. The categories are exactly the lessons' categories, with "unknown" for a lesson without one. |
| MemoryStore.Memory.ClearOldInteractions | core/memory.py:235-245 | Keeps, in order, exactly the interactions strictly newer than now minus the given number of days. Lessons and both indexes are untouched. |
| MemoryStore.Memory.ImportMemory | core/memory.py:256-264 | Replaces both lists with the imported ones, or changes nothing when the file could not be read. The indexes are not rebuilt. |
| MemoryStore.CollectHits | core/memory.py:162-173 | The copying loop returns exactly the hit list of the answer: empty when the query raised or a column is short. |
| MemoryStore.NextInteractionIdFresh | core/memory.py:77 | While the interactions are numbered 1..n, the next id is not among them. |
| MemoryStore.PurgeThenAddReusesId | core/memory.py:235-245 | On interactions still numbered 1..n (no purge or import since they were added), once a purge has dropped any interaction, the id the next add will take was already issued to an interaction of the pre-purge list. |
| MemoryStore.PurgedIdStillIndexed | core/memory.py:235-245 | On a well-numbered memory in lockstep, once a purge drops any interaction, the id the next add will take is still held by an entry of the interaction index. |
| MemoryStore.PurgeThenAddDuplicatesSnapshotId | core/memory.py:235-245 | A concrete case: with two interactions and the older one purged, the next id equals the surviving record's id. |
| Tools.RunResult | core/tools.py:58-77 | Success holds exactly when the process exited with code 0. An exited process gives its output, stderr and code. A timeout gives empty output, code -1 and the timeout error. A failure to start gives empty output, code -1 and the raised message as the error. |
| Tools.SafeExecute | core/tools.py:79-98 | Rejects the code exactly when some forbidden keyword occurs in it as a substring, naming the first such keyword in list order. Otherwise it returns the run's result. |
| Tools.RejectionAsSeen | core/tools.py:82-97 | A rejection is a failure with no output, return code -1 and the forbidden-keyword text. A process that exits with -1, prints nothing and writes that text to stderr gives a result a caller cannot tell apart from it. |
| Tools.DenylistIsTextual | core/tools.py:82-97 | The denylist matches substrings: code that merely contains "file" inside an identifier is rejected. |
| Tools.FileManagerExecute | core/tools.py:245-311 | A read of a file gives the first min(5000, length) characters of its text as read with universal newlines. A listing gives the directory's first min(20, count) entries. A write stores the content under the path and a delete removes exactly that path, other files unchanged. A failing known action reports the action and path and changes nothing. An unknown action fails with an error naming it. |
| Tools.WriteThenRead | core/tools.py:259-275 | Reading a path just written returns the first 5000 characters of what was written, with its line endings read as universal newlines. Text without a carriage return comes back exactly. |
| Tools.UniversalNewlines | core/tools.py:260-261 | Text read in text mode has no carriage return left; text without one reads back unchanged, and no other character appears. |
| Tools.DeleteThenRead | core/tools.py:259-303 | After a file is deleted, reading it fails with "no such path". |
| Tools.WriteIsLocal | core/tools.py:268-275 | A write changes only the file it names. |
| Tools.FormatOf | core/tools.py:203-211 | The format is CSV exactly for a ".csv" path. It is unsupported exactly when the path ends in none of ".csv", ".xlsx", ".xls". |
| Tools.AnalyzeData | core/tools.py:189-234 | An unsupported extension fails at once. Otherwise a load error becomes a failure carrying the path and the message, and a loaded table gives the table report. |
| Tools.TableReport | core/tools.py:213-227 | The report on a loaded table is a success carrying the path, the row and column counts, the column names, and exactly the first min(5, rows) rows as preview. |
| Tools.DistinctCount | core/tools.py:338-344 | A list without duplicates has as many distinct elements as positions. |
| Tools.DefaultToolsDistinct | core/tools.py:321-326 | The four default tools have pairwise distinct names. |
| Tools.ToolBox.constructor | core/tools.py:316-326 | A new toolbox holds exactly the four default tools, registered in order under their own names. |
| Tools.ToolBox.RegisterDefaultTools | core/tools.py:321-326 | Registering a duplicate-free tool list into an empty box lists the tools in that order, each under its own name. |
| Tools.ToolBox.RegisterTool | core/tools.py:328-330 | Maps the tool's name to the tool, overwriting any earlier entry. The name joins the listing order only when it is new. The registry invariant is preserved. |
| Tools.ToolBox.GetTool | core/tools.py:332-334 | Finds a tool exactly when its name is registered, and returns the registered tool. |
| Tools.ToolBox.ListTools | core/tools.py:336-344 | One name and description pair per registered name, in first-registration order. |
| Tools.ListingCoversRegistry | core/tools.py:336-344 | The listing is as long as the registry, and a name is listed exactly when it is registered. |
| Tools.ToolBox.ExecuteTool | core/tools.py:346-361 | An unregistered name fails with "tool not found" and runs nothing. A tool that raises becomes a failure with its message. Otherwise the tool's own result is returned. |
| Tools.RegisterGrowth | core/tools.py:330 | The registry grows by one entry for a new name and keeps its size for a known one. |
| Tools.NotFoundNamesTool | core/tools.py:348-353 | The "tool not found" error names the missing tool and is not a success. |
| Agent.JoinedLineOccurs | core/agent.py:57-60 | Every line occurs in the newline-joined text. |
| Agent.SystemPromptListsTools | core/agent.py:55-83 | The system prompt contains the line "- name: description" for every listed tool. |
| Agent.Snippets | core/agent.py:175-183 | At most two snippets, one per leading hit. Each is exactly the first min(200, length) characters of its hit's text. |
| Agent.ContextEmptyIff | core/agent.py:173-183 | The memory context is empty exactly when both searches found nothing. |
| Agent.BulletsListItems | core/agent.py:177-178 | Every snippet appears in the context as its own "- snippet" line. |
| Agent.PromptShape | core/agent.py:186-197 | The prompt is the system message, then the last min(10, length) history messages in order, then the context message exactly when there is a context; at most twelve messages in all. |
| Agent.RequestTraceShape | core/agent.py:96-165 | A request leaves 3 to 5 thoughts: one Analysis for the task, plus one for each search that found something, one Planning and one Evaluation, which comes last. The last has confidence 0.8 exactly when the request ended with a reply. All confidences, and their average, lie in [0, 1]. |
| Agent.RequestOutcome | core/agent.py:128-165 | A request ends with a reply exactly when the completion succeeded and the index stored the interaction. A reply is kept as it is, a failed completion is kept as it is, and a reply whose index add raised becomes a failure with the index's message. |
| Agent.UnknownToolThought | core/agent.py:209-234 | Using an unregistered tool leaves two thoughts. The second has confidence 0.1, and its justification is the error that names the missing tool. |
| Agent.SmartAgent.constructor | core/agent.py:21-53 | A new agent has an empty conversation and a new empty trace. Its toolbox holds exactly the four default tools in registration order. Its memory is as loaded, with empty indexes. Its system prompt lists the toolbox's tools. |
| Agent.SmartAgent.Create | core/agent.py:36-38 | Construction fails, creating no agent, exactly when the API key is absent or empty. Otherwise the new agent has the name and language, an empty history and trace, the session id, the memory as loaded with empty indexes, and the four default tools in order. |
| Agent.SmartAgent.BuildContext | core/agent.py:172-183 | The context built with `+=` is exactly the similar-interactions section followed by the lessons section. |
| Agent.SmartAgent.AppendSection | core/agent.py:175-178 | The loop appends the header and one bullet per snippet, or nothing when there are no hits. |
| Agent.SmartAgent.CallCompletion | core/agent.py:167-207 | The completion service is asked once. The request carries the configured model, temperature 0.7, at most 2000 tokens, and the prompt built from the system prompt, the history and the memory context. |
| Agent.SmartAgent.ProcessRequest | core/agent.py:85-165 | Exactly one user turn is appended first. On a reply, one assistant turn and one memory record are added. If the index then stores the record, the result carries the reply, the trace, its summary and the plan. If the index raises, the turn and the record stay, but the request fails with that error. A failed completion adds neither, and the request fails with its error. Errors start with the fixed lead. The trace is the request trace of the two search results and the outcome. Lessons are untouched; numbering is preserved, and lockstep whenever the index stores. |
| Agent.SmartAgent.Conclude | core/agent.py:128-165 | After the completion: a reply is handed to Respond, a failure is recorded. The closing thought, the new history, records and index entries, and the result all follow the request outcome. |
| Agent.SmartAgent.Consult | core/agent.py:104-122 | Asks each index for three hits and records an Analysis thought for each search that found something. |
| Agent.SmartAgent.Respond | core/agent.py:131-150 | Appends the assistant turn and stores the interaction in memory. If the index stored it, records the 0.8 evaluation and returns the reply with the trace, its summary and the plan. If the index raised, records the 0.0 error evaluation and returns the failure. |
| Agent.SmartAgent.CloseReply | core/agent.py:140-165 | With the interaction stored, records the 0.8 evaluation and returns the reply with the trace, its summary and the plan. Otherwise records the 0.0 error evaluation and returns the error with the trace. |
| Agent.SmartAgent.RecordFailure | core/agent.py:151-165 | Records the 0.0 Evaluation thought with the error, and returns the error with the trace. |
| Agent.SmartAgent.UseTool | core/agent.py:209-234 | Returns the toolbox's result unchanged. Appends exactly two Execution thoughts: the invocation, then 0.9 on success or 0.1 with the error. |
| Agent.SmartAgent.LearnLesson | core/agent.py:236-243 | Adds one lesson and passes on the memory's outcome: its id, or the index's error. Only when the index stored the lesson is one Learning thought added. Interactions, the interaction index, the task and the steps are unchanged, and lockstep is kept exactly when the index stored it. |
| Agent.SmartAgent.ConversationTurns | core/agent.py:255 | The turn count is the history length halved and rounded down. |
| Agent.SmartAgent.GetSessionSummary | core/agent.py:249-259 | Reports the session id, name, language, turn count, trace summary and memory statistics. |
| Agent.SmartAgent.ResetSession | core/agent.py:278-282 | Empties the conversation, restores a fresh trace and starts a new session id. Memory and tools are untouched. |

## Left out

- File I/O is not modelled: loading, saving and exporting as JSON (`_save_memory`, `export_memory`, `export_reasoning`, `export_session`). A loaded file is an `Option<Snapshot>` parameter. The memory statistics do not report the memory file's size.
- The web scraper and its search helper are not modelled, because they only reach the network.
- The data analyser's pandas statistics are not modelled beyond row count, column count, column names and the preview.
- The vector index's similarity ranking and embeddings are not modelled. A query is an oracle, and its honesty is a hypothesis of the search contracts, not an assumption. How the index treats a duplicate id on add is not modelled: an add either stores the entry or raises, as the `IndexAdd` parameter says.
- The completion service is an oracle. Within a request, the completion call and the index's add are the two steps that can raise, and both are modelled. The searches swallow their own errors, and saving the memory file is not modelled.
- Dates are integer seconds. Thoughts carry no timestamp, so thought records leave out the timestamp field. Session ids are the integer `now` at construction or reset.
- Thought texts are not rendered: a thought's content and justification are `Note` values, one constructor per message template with the values it interpolates. Every other text keeps the source's Arabic string: the kind labels, the placeholder plan (`Reasoning.PlaceholderSteps`), the default tools' descriptions, the tool error texts (`Tools.ErrorMessage`), the memory-context headers (`Agent.SimilarHeader`, `Agent.LessonsHeader`, `Agent.ContextLead`), the request error lead (`Agent.ErrorLead`) and the system prompt. Errors raised by the operating system keep Python's English text. Only the tool lines are verified inside the system prompt.
- Concurrency is not modelled: `process_request` is async, but it runs as a sequence of steps.
- Debug and error printing is not modelled.
- MemoryStore.Memory.ImportMemory: imported records are taken as well-formed. A record without the expected keys, which would raise in the source later on, is not modelled.
- Tools.FileManagerExecute: the abstract file system does not tie directory listings to file writes. A missing parent directory on write is not modelled. Text is written as given, the line separator being `\n` on POSIX systems, and UTF-8 decoding errors on read are not modelled.
- Agent.SmartAgent.ProcessRequest: it does not require or promise the agent-level invariant. The system prompt is a constant field and the toolbox is not modified, so the invariant holds trivially across it.
- The agent's `get_memory_stats` is a direct delegation to `MemoryStore.Memory.Stats`, which the session summary uses.
- Tools.ToolBox.RegisterDefaultTools: it registers the four defaults with one loop, in the same order as the source's four separate calls.
- Floating-point confidences are modelled as reals, and rounding is not modelled.
