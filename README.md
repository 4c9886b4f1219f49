# code-review-agent core, modelled in Dafny

This project models the deterministic core of an LLM code-review pipeline
built on a LangGraph state graph. A review request becomes a typed
`ReviewState` record. The record passes through a fixed graph of nodes:

- a router, then static analysis and security analysis;
- an "experts" model/tools loop, bounded at two tool rounds;
- synthesis, which writes the final Markdown report.

Chat follow-ups go through an agent router and a reply node. Around the
graph sit four more pieces:

- a namespaced semantic cache: best-match lookup gated by a threshold, 512
  entries per namespace, and bulk eviction of the 64 oldest entries;
- a per-thread conversation memory;
- an in-memory thread repository;
- the HTTP helpers of the `/explain` endpoints: SSE framing, code-fence
  extraction, history truncation, request validation and paragraph
  streaming.

How the model is laid out:

- Each node is a method from a state record to a state record.
  - Its `ensures` give every field it writes.
  - A frame clause `r == s.(…)` says that nothing else changes.
  - Where the Python loops, the method loops too, and is proved equal to a
    specification function. Lemmas then state what the source promises
    about that function.
- The cache, the conversation memory and the repository are classes. Their
  dict fields are Dafny `map`s, reassigned by `modifies` methods.
- Whatever the code cannot see is a parameter:
  - the model's answer;
  - the embedder and `math.sqrt`;
  - Python's `hash`, sha256, the clock and uuids;
  - the regex engine, as a predicate `hit(kind, line)`;
  - radon's blocks;
  - the tree-sitter parser;
  - the number formatting of floats.
- Python's own semantics are written out:
  - `str.strip` over the `str.isspace` set (`lower` is ASCII only, see "## Left out");
  - negative slices (`[-n:]`) and slices that run past the end;
  - `or` fallbacks, including falsy empty strings and lists;
  - `min`/`max` progress caps.

Modules, one per file: `Wrappers`, `Text`, `Sorting`, `State`,
`SemanticCache`, `ConversationMemory`, `Repository`, `Experts`, `Graph`,
`Context`, `Router`, `AgentRouter`, `Scanners`, `Complexity`,
`ToolsParallel`, `AstWalk`, `Render`, `Collector`, `Synthesis`,
`ChatReply`, `Api`, `Encoding`, `VectorStore`.

## Model

| member | source | states |
|---|---|---|
| SemanticCache.Embedding | backend/graph/memory/semantic_cache.py:41-52 | the vector has `dims` entries, and a text shorter than 3 characters gives the zero vector |
| SemanticCache.Embed | backend/graph/memory/semantic_cache.py:41-52 | the counting loop, the sum of squares and the division by the norm (`or 1.0`) compute `Embedding` |
| SemanticCache.CountTrigrams | backend/graph/memory/semantic_cache.py:46-49 | bucket b ends up counting the lower-cased trigrams with `hash(tri) % dims == b` |
| SemanticCache.SumSquares | backend/graph/memory/semantic_cache.py:51 | the loop computes the sum of squares |
| SemanticCache.EmbeddingIsUnit | backend/graph/memory/semantic_cache.py:44-52 | with an exact square root, the embedding of a text of 3 or more characters has unit length: the L2 normalisation |
| SemanticCache.Cosine | backend/graph/memory/semantic_cache.py:69-75 | 0 when either vector is empty or the lengths differ, and 0 when either vector is all zeros (the `or 1.0` guards keep the division defined) |
| SemanticCache.CosineSymmetric | backend/graph/memory/semantic_cache.py:69-75 | `cosine(a, b) == cosine(b, a)` |
| SemanticCache.CosineSelf | backend/graph/memory/semantic_cache.py:69-75 | with an exact square root, a non-zero vector has cosine 1 with itself |
| SemanticCache.ZeroQueryMisses | backend/graph/memory/semantic_cache.py:69-75 | a zero query vector scores 0 against every item, so no item is a first best and `get` returns None |
| SemanticCache.ShortQueryMisses | backend/graph/memory/semantic_cache.py:44-45 | with `LocalEmbedder`, a query shorter than 3 characters scores 0 against every cached item |
| SemanticCache.BestMatch | backend/graph/memory/semantic_cache.py:117-122 | the loop returns the first item of strictly greatest positive score, or reports that no item scores above 0 |
| SemanticCache.FirstBestUnique | backend/graph/memory/semantic_cache.py:118-122 | the first-best item is unique: ties go to the earliest item in insertion order |
| SemanticCache.FirstBestOrNone | backend/graph/memory/semantic_cache.py:118-122 | a first-best item exists only when some score is positive, so the two outcomes of the loop exclude each other |
| SemanticCache.Put | backend/graph/memory/semantic_cache.py:131-132 | dict assignment: a new key is appended at the end. For an existing key the item replaces the entry at that key's first position and every other entry stays where it was |
| SemanticCache.PutInPlace | backend/graph/memory/semantic_cache.py:131-132 | with distinct keys, assignment replaces exactly the entry with that key and leaves every other entry unchanged in place |
| SemanticCache.PutUnique | backend/graph/memory/semantic_cache.py:131-132 | assignment keeps the keys of a namespace distinct |
| SemanticCache.RemoveKeys | backend/graph/memory/semantic_cache.py:136-138 | popping a set of keys keeps only items of the namespace whose key is not in it, and keeps every such item |
| SemanticCache.RemoveKeysMultiset | backend/graph/memory/semantic_cache.py:136-138 | each item is kept as often as it occurs, or not at all when its key is popped |
| SemanticCache.RemoveKeysConcat | backend/graph/memory/semantic_cache.py:136-138 | popping distributes over concatenation, so the kept items stay in their order |
| SemanticCache.RemoveKeysOne | backend/graph/memory/semantic_cache.py:136-138 | a single item is kept exactly when its key is not popped |
| SemanticCache.EvictCount | backend/graph/memory/semantic_cache.py:134-138 | a namespace over 512 entries loses exactly 64 |
| SemanticCache.EvictDropsOldest | backend/graph/memory/semantic_cache.py:134-138 | every evicted item has a timestamp no later than that of any item kept |
| SemanticCache.SetFacts | backend/graph/memory/semantic_cache.py:128-138 | after `set` the keys are distinct, and a namespace of at most 512 entries still has at most 512 |
| SemanticCache.EvictUnique | backend/graph/memory/semantic_cache.py:134-138 | eviction keeps the keys of a namespace distinct |
| SemanticCache.PopAll | backend/graph/memory/semantic_cache.py:136-138 | the `pop` loop over the 64 oldest leaves exactly the items whose key is not among theirs |
| SemanticCache.MemorySemanticCache.constructor | backend/graph/memory/semantic_cache.py:104-108 | the cache starts with no namespaces |
| SemanticCache.MemorySemanticCache.Namespace | backend/graph/memory/semantic_cache.py:110-111 | `setdefault`: returns the namespace's items, creating it empty when absent, and changes nothing else |
| SemanticCache.MemorySemanticCache.Get | backend/graph/memory/semantic_cache.py:113-126 | creates the namespace; an empty namespace gives None; a hit is the first-best item by `cosine` with score ≥ `min_score`; a miss means no positive score or a best score below `min_score`; other namespaces are unchanged |
| SemanticCache.MemorySemanticCache.Set | backend/graph/memory/semantic_cache.py:128-138 | the namespace becomes the eviction of the namespace with the new item put; every other namespace is unchanged; ≤ 512 entries is preserved |
| SemanticCache.NonEmpty | backend/graph/memory/semantic_cache.py:245 | keeps exactly the non-empty parts, each as often as it occurs |
| SemanticCache.NonEmptyConcat | backend/graph/memory/semantic_cache.py:245 | the filter distributes over concatenation, so the parts keep their order |
| SemanticCache.NonEmptyOne | backend/graph/memory/semantic_cache.py:245 | a single part is kept exactly when it is non-empty |
| SemanticCache.BuildQueryString | backend/graph/memory/semantic_cache.py:243-246 | exactly `base[:max_len]`: the prefix of the "\|"-join of the non-empty parts of length `min(max_len, len(base))`, or `len(base) + max_len` (at least 0) for a negative `max_len` |
| SemanticCache.EmptyPartIgnored | backend/graph/memory/semantic_cache.py:243-246 | an empty part anywhere leaves the key unchanged |
| ConversationMemory.HashIgnoresSurroundingSpace | backend/app/core/memory.py:25-26 | texts that differ only by surrounding whitespace hash alike |
| ConversationMemory.Appended | backend/app/core/memory.py:64-73 | blank content adds nothing; otherwise exactly one message, the stripped content, is added at the end, a human message iff the role is "user" |
| ConversationMemory.AppendedStored | backend/app/core/memory.py:64-73 | every stored message stays stripped and non-empty |
| ConversationMemory.LastMessageOf | backend/app/core/memory.py:92-100 | None iff the history is empty; else the last message's content, with role "assistant" iff it is an AI message and "user" otherwise |
| ConversationMemory.AfterUser | backend/app/core/memory.py:75-81 | nothing is added for empty or blank content or when the last message is a user message with the same stripped text; otherwise one human message is added |
| ConversationMemory.AfterAssistant | backend/app/core/memory.py:83-90 | the same rule for assistant messages |
| ConversationMemory.WhitespaceAssistantAccepted | backend/app/core/memory.py:83-90 | whitespace-only content is reported as added (True) and yet leaves the history unchanged |
| ConversationMemory.NoConsecutiveRepeat | backend/app/core/memory.py:75-90 | appending the same user or assistant text twice in a row is appending it once |
| ConversationMemory.LastAssistantOf | backend/app/core/memory.py:102-108 | the content of the most recent AI message, only human messages after it; None iff there is no AI message |
| ConversationMemory.HistoryView | backend/app/core/memory.py:110-119 | the last `limit` messages in order as role/content entries; `limit == 0` gives the whole history, as Python's `[-0:]` does |
| ConversationMemory.HistoryViewIs | backend/app/core/memory.py:113-118 | a list with one entry per message of the tail, in order, is the view |
| ConversationMemory.WithAnalysis | backend/app/core/memory.py:122-131 | blank text clears text and hash; otherwise the stripped text and its hash are stored; reports are replaced only when given; the history is untouched |
| ConversationMemory.Memory.constructor | backend/app/core/memory.py:39-41 | the memory starts with no threads |
| ConversationMemory.Memory.GetSlot | backend/app/core/memory.py:44-50 | returns the thread's slot, creating an empty one when absent |
| ConversationMemory.Memory.GetLastReportHash | backend/app/core/memory.py:53-54 | the slot's last report hash |
| ConversationMemory.Memory.SetLastReportHash | backend/app/core/memory.py:56-61 | stores and returns the hash of the stripped text |
| ConversationMemory.Memory.Append | backend/app/core/memory.py:64-73 | the slot's history becomes `Appended(...)`; blank content changes nothing at all |
| ConversationMemory.Memory.AppendUser | backend/app/core/memory.py:75-81 | the slot's history becomes `AfterUser(...)` |
| ConversationMemory.Memory.AppendAssistantIfNew | backend/app/core/memory.py:83-90 | returns whether the content was accepted; the history becomes `AfterAssistant(...)` |
| ConversationMemory.Memory.LastMessage | backend/app/core/memory.py:92-100 | returns `LastMessageOf` the thread's history |
| ConversationMemory.Memory.LastAssistant | backend/app/core/memory.py:102-108 | the reversed scan returns `LastAssistantOf` the history |
| ConversationMemory.Memory.GetHistory | backend/app/core/memory.py:110-119 | the loop returns `HistoryView(history, limit)` |
| ConversationMemory.Memory.SetAnalysis | backend/app/core/memory.py:122-131 | the slot becomes `WithAnalysis(...)` |
| ConversationMemory.Memory.GetAnalysis | backend/app/core/memory.py:133-136 | the stored text and reports |
| Repository.NewThreadId | backend/app/db/repository.py:57 | the given id when it is non-empty, else a fresh one |
| Repository.Listing | backend/app/db/repository.py:89-100 | min(limit, n) summaries, newest `created_at` first, each the summary (with `message_count`) of a stored thread |
| Repository.ListingNewest | backend/app/db/repository.py:89-100 | the listing summarises the threads it picks; they are stored threads, each listed no more often than stored; no thread left out is newer than a listed one |
| Repository.ListingFromStore | backend/app/db/repository.py:89-100 | every listed id belongs to a stored thread |
| Repository.SummariesNewest | backend/app/db/repository.py:92-99 | a prefix of the threads sorted newest first gives summaries in non-increasing `created_at` |
| Repository.SummariesFrom | backend/app/db/repository.py:92-99 | each summary of the prefix is the summary of a stored thread |
| Repository.MemoryRepo.constructor | backend/app/db/repository.py:44-46 | the repository starts with no threads |
| Repository.MemoryRepo.CreateOrUpdateThread | backend/app/db/repository.py:48-66 | an existing id keeps title, creation time and messages, with state and report replaced; otherwise a thread titled "Code Review" with no messages is stored under the given or a fresh id; no thread is removed; id equals key is kept |
| Repository.MemoryRepo.AddMessage | backend/app/db/repository.py:68-73 | unknown thread: no change; otherwise exactly one message appended at the end |
| Repository.MemoryRepo.GetThread | backend/app/db/repository.py:75-87 | None for an unknown id, else the stored thread |
| Repository.MemoryRepo.ListThreads | backend/app/db/repository.py:89-100 | returns `Listing` of the threads in insertion order |
| State.InitialState | backend/graph/state.py:68-111 | the last 20 history entries in order; default agents when none or empty; progress 0; empty logs and messages; reports and final report unset; input mode "paste" |
| State.AddMessages | backend/graph/state.py:16-17 | the concatenation of the two lists, None as empty |
| State.Bump | backend/graph/nodes/router.py:43 | `min(100, p + step)` |
| State.Floor | backend/graph/nodes/tools_parallel.py:92-96 | `max(p, floor)` |
| State.BumpMonotone | backend/graph/nodes/router.py:43 | progress within 0..100 never decreases and never exceeds 100 |
| State.AppendLog | backend/graph/nodes/router.py:33-42 | exactly one log appended, earlier logs kept |
| Experts.ExpertsQuery | backend/graph/nodes/llm_experts.py:53-55 | the cache query has at most 4000 characters |
| Experts.NextAfterModel | backend/graph/nodes/llm_experts.py:106-112 | "tools" iff the reply has tool calls and fewer than 2 rounds ran; "finalize" otherwise |
| Experts.SystemText | backend/graph/nodes/llm_experts.py:38-40 | the loaded prompt unless it is empty, else the built-in instruction; never empty |
| Experts.InitialMessages | backend/graph/nodes/llm_experts.py:35-46 | a system message with the prompt, then a human message that starts with "Language: " and the language and ends with the code cut to 4000 characters |
| Experts.Conversation | backend/graph/nodes/llm_experts.py:35-46 | the stored conversation, or exactly the two initial messages when it is empty |
| Experts.MergeMetrics | backend/graph/nodes/llm_experts.py:148-153 | avg and count taken from the tool when present; worst is the larger of tool and existing values |
| Experts.ApplyCacheHit | backend/graph/nodes/llm_experts.py:58-86 | cached findings appended after the existing ones. The metrics become MergeMetrics of the existing metrics and the cached avg, worst and count: avg and count come from the cache when present, and worst is the max of cached and existing. Existing issues are kept. One log is added and `experts_next` is "finalize"; nothing else changes |
| Experts.ExpertsModelNode | backend/graph/nodes/llm_experts.py:49-113 | the three paths (cache hit, no model, model reply); routing to tools only with rounds left, iteration count unchanged |
| Experts.ExpertsToolsNode | backend/graph/nodes/llm_experts.py:116-124 | the iteration count rises by exactly 1 (absent as 0); the messages become the tool node's |
| Experts.MergeToolOutputs | backend/graph/nodes/llm_experts.py:127-156 | the loop over the messages computes `Merged(s)` |
| Experts.ScanFindingsAppend | backend/graph/nodes/llm_experts.py:133-144 | scanner findings of two runs of messages are concatenated in message order |
| Experts.InvalidJsonSkipped | backend/graph/nodes/llm_experts.py:137-140 | a tool message that is not valid JSON contributes nothing |
| Experts.MergeKeepsEarlierFindings | backend/graph/nodes/llm_experts.py:129-144 | the existing vulnerabilities remain a prefix of the merged list |
| Experts.RadonWorstIsMax | backend/graph/nodes/llm_experts.py:145-153 | merged worst is at least the starting worst and every radon message's worst |
| Experts.ExpertsFinalizeNode | backend/graph/nodes/llm_experts.py:159-176 | merged reports, one "llm-experts" log, progress `min(100, p + 10)` |
| Graph.RouteExperts | backend/graph/graph.py:77-87 | "tools" iff `experts_next` is "tools"; otherwise, absent included, "finalize" |
| Graph.NextIsSuccessor | backend/graph/graph.py:71-100 | only END has no successor; experts_model has exactly experts_tools (label "tools") and experts_finalize; every other node has one |
| Graph.PersistNode | backend/graph/graph.py:29-36 | the identity on the state |
| Graph.ExpertsLoop | backend/graph/graph.py:89-97 | a model/tools loop starts at experts_model and ends at experts_finalize |
| Graph.ToolRoundsBounded | backend/graph/nodes/llm_experts.py:106-124 | experts_tools runs at most 2 − iterations times |
| Graph.ExpertsLoopFollowsEdges | backend/graph/graph.py:89-97 | every step of the loop is an edge of the graph |
| Graph.RunReachesEnd | backend/graph/graph.py:71-100 | every run goes from START along the edges and reaches END |
| Graph.RunToolRounds | backend/graph/graph.py:89-97 | a run starting without `experts_iterations` visits experts_tools at most twice |
| Graph.UseCheckpointer | backend/graph/graph.py:103-112 | on iff the variable, lower-cased, is "1", "true" or "yes"; off when unset |
| Graph.AppNext | backend/graph/orchestrator.py:29-45 | only END of the app graph has no successor |
| Graph.AppRun | backend/graph/orchestrator.py:33-45 | START → detect_language → persist → END, following the edges |
| Context.LanguageFromPath | backend/graph/nodes/context.py:20-32 | None iff the lower-cased path ends in none of the extensions; otherwise the language of an extension it ends with |
| Context.ExtensionsExclusive | backend/graph/nodes/context.py:17-32 | a path ends with at most one of the extensions, so the set's order cannot matter |
| Context.FilterOne | backend/graph/nodes/context.py:38-50 | a file is kept iff its stripped path is non-empty with a known language, as path, language, size `len(content)`, content |
| Context.FilteredSound | backend/graph/nodes/context.py:35-51 | every kept file has a stripped non-empty path, its language and its size |
| Context.FilteredComplete | backend/graph/nodes/context.py:35-51 | every eligible input file is kept |
| Context.FilterFiles | backend/graph/nodes/context.py:35-51 | the loop computes `Filtered(files)` |
| Context.SourceMode | backend/graph/nodes/context.py:58-66 | the lower-cased source; if blank, "files" with files, else "pasted" |
| Context.Collected | backend/graph/nodes/context.py:68-76 | "pasted" gives the single `<pasted>` file in the state's language or python; otherwise the filtered files |
| Context.TotalLinesBounds | backend/graph/nodes/context.py:79-90 | each file counts at least 1 and at most 1 + its length in lines |
| Context.SummaryFacts | backend/graph/nodes/context.py:79-90 | `total_files` is the file count; languages are sorted, distinct and exactly those of the files |
| Context.CodeSampleHasFiles | backend/graph/nodes/context.py:93-98 | each of the first ten files appears in the code sample under its header |
| Context.Summarize | backend/graph/nodes/context.py:79-90 | the loop computes `Summary(collected)` |
| Context.BuildCodeSample | backend/graph/nodes/context.py:93-98 | the loop computes the sample of the first ten files |
| Context.ContextNode | backend/graph/nodes/context.py:57-119 | source, files, summary; code only filled when empty and files exist; progress `max(p, 20)`; one "context" log; nothing else |
| Router.DetectLanguage | backend/graph/nodes/router.py:25-30 | java iff the java markers occur; javascript iff the JS markers occur without them; python otherwise |
| Router.EmptyCodeIsPython | backend/graph/nodes/router.py:25 | empty (or None) code is python |
| Router.RouterNode | backend/graph/nodes/router.py:11-44 | language set, one log naming it, progress `min(100, p + 5)`, nothing else |
| Router.DetectLanguageNode | backend/graph/orchestrator.py:10-26 | the same detection and one log; progress and all other fields unchanged |
| AgentRouter.ModelLabel | backend/graph/nodes/agent_router.py:52-63 | the model's stripped lower-cased answer only when it is one of the four labels |
| AgentRouter.ClassifyQuestion | backend/graph/nodes/agent_router.py:25-63 | always one of the four labels; keyword precedence security > quality > bug; the model consulted only when no keyword matches, "general" when it gives no label |
| AgentRouter.AnyInConcat | backend/graph/nodes/agent_router.py:37-49 | a keyword of the joined lists matches iff a keyword of one of them does |
| AgentRouter.AgentRouterNode | backend/graph/nodes/agent_router.py:66-94 | a blank question gives "general" and no log; otherwise the classifier's label and one "Routed to X agent" log |
| Scanners.LineMatchesFacts | backend/graph/nodes/security_analysis.py:40-53 | the matches of one line are exactly its (pattern, line) hits, in pattern order |
| Scanners.MatchesExact | backend/graph/nodes/security_analysis.py:40-53 | one match per (line, pattern) hit, ordered by line then pattern, lines 1-based |
| Scanners.ScanLines | backend/graph/nodes/security_analysis.py:40-53 | the nested loops compute `Matches` |
| Scanners.Snippet | backend/graph/nodes/security_analysis.py:50 | `line.strip()[:160]`: the prefix of the stripped line of length `min(160, len)` |
| Scanners.Severity | backend/graph/nodes/security_analysis.py:47-49 | "high" iff the kind is eval_usage, exec_usage or shell_true; "medium" otherwise |
| Scanners.SecurityFindings | backend/graph/nodes/security_expert.py:22-35 | one vulnerability per match, in match order |
| Scanners.BugSuspects | backend/graph/nodes/bug_hunter.py:26-37 | one suspect per match, in match order |
| Scanners.EvalFlagged | backend/tests/test_graph_nodes.py:26 | a line the eval pattern hits yields a high-severity eval_usage finding on its 1-based line |
| Scanners.BugSuspectFacts | backend/graph/nodes/bug_hunter.py:30-34 | every suspect has confidence 0.6, a snippet of at most 160 characters, a line within the code and a known kind |
| Scanners.FindingsInLineOrder | backend/graph/nodes/security_analysis.py:40-53 | findings are in ascending line order |
| Scanners.SecurityAnalysisNode | backend/graph/nodes/security_analysis.py:23-70 | existing vulnerabilities kept as a prefix, new ones after; one log with the new count; progress `min(100, p + 30)`; nothing else |
| Scanners.SecurityExpertNode | backend/graph/nodes/security_expert.py:18-47 | the report replaced by the new findings; one log; progress `min(100, p + 20)` |
| Scanners.BugNode | backend/graph/nodes/bug_hunter.py:19-47 | the bug report replaced by the new suspects; one log; progress `min(100, p + 20)` |
| Complexity.WorstIsMax | backend/graph/nodes/static_analysis.py:34-46 | worst is at least every block's complexity, and attained by one when there are blocks |
| Complexity.OffendersExact | backend/graph/nodes/static_analysis.py:34-46 | offenders are exactly the blocks of complexity ≥ 10 |
| Complexity.OffendersIffWorst | backend/graph/nodes/static_analysis.py:68-77 | there are offenders iff worst ≥ 10 |
| Complexity.Summary | backend/graph/nodes/static_analysis.py:23-46 | count, worst and offenders of the blocks, avg their mean; all zero without blocks |
| Complexity.IssuesFacts | backend/graph/nodes/static_analysis.py:68-86 | one cyclomatic issue per offender in order, then a `file_length` issue iff the code exceeds 2000 characters; none without blocks |
| Complexity.BuildIssues | backend/graph/nodes/quality_expert.py:40-61 | the loop computes `Issues(code, blocks)` |
| Complexity.StaticBlocks | backend/graph/nodes/static_analysis.py:24-32 | a missing radon and a parse error both give no blocks |
| Complexity.StaticAnalysisNode | backend/graph/nodes/static_analysis.py:49-116 | quality and bug reports replaced, with radon's failures read as no blocks; one log; progress `min(100, p + 35)` |
| Complexity.QualityNode | backend/graph/nodes/quality_expert.py:15-72 | a parse error from `cc_visit` escapes (no result), and only then; otherwise, with a missing radon read as no blocks, the quality report is replaced, one log is appended, progress becomes `min(100, p + 20)` and nothing else changes |
| ToolsParallel.Normalize | backend/graph/nodes/tools_parallel.py:46-50 | type falls back to rule, then "security_issue"; severity is the given one, `None` for a null one, "medium" when missing; snippet is `(snippet or "")[:200]`; exploit falls back to message |
| ToolsParallel.NormalizeAll | backend/graph/nodes/tools_parallel.py:44-50 | one normalised finding per finding, in order |
| ToolsParallel.SecurityOrder | backend/graph/nodes/tools_parallel.py:41-53 | all semgrep findings, then all bandit findings, each in original order |
| ToolsParallel.CollectFindings | backend/graph/nodes/tools_parallel.py:41-53 | the loop computes the normalised concatenation |
| ToolsParallel.ToolMetricsOf | backend/graph/nodes/tools_parallel.py:56-60 | avg, worst and count are radon's values when given and 0 otherwise |
| ToolsParallel.OffenderIssue | backend/graph/nodes/tools_parallel.py:64-73 | an issue iff the offender's complexity is ≥ 10 |
| ToolsParallel.ToolIssuesFacts | backend/graph/nodes/tools_parallel.py:62-84 | complexity issues (score ≥ 10) first, then at most 10 dead-code issues |
| ToolsParallel.BuildToolIssues | backend/graph/nodes/tools_parallel.py:62-84 | the loops compute `ToolIssues` |
| ToolsParallel.ToolsParallelNode | backend/graph/nodes/tools_parallel.py:21-98 | reports replaced; bug report set only when absent; progress `max(p, 70)`; nothing else |
| AstWalk.CallFinding | backend/graph/nodes/ast_tree_sitter.py:83-98 | at most one finding per call node |
| AstWalk.XssFinding | backend/graph/nodes/ast_tree_sitter.py:193-210 | at most one finding per assignment node |
| AstWalk.HereSound | backend/graph/nodes/ast_tree_sitter.py:83-98 | a node's findings are dangerous calls (high) or, in JavaScript, innerHTML/outerHTML assignments (medium), on the node's row + 1 |
| AstWalk.WalkIsPreorder | backend/graph/nodes/ast_tree_sitter.py:100-103 | the recursive walk is the node-by-node findings of the pre-order node list |
| AstWalk.WalkExact | backend/graph/nodes/ast_tree_sitter.py:175-215 | a finding is reported iff some node of the tree contributes it; each is sound |
| AstWalk.PythonOnlyCalls | backend/graph/nodes/ast_tree_sitter.py:83-103 | Python trees yield only high-severity calls of eval, exec, compile, `__import__` |
| AstWalk.PythonEvalFlagged | backend/graph/nodes/ast_tree_sitter.py:84-98 | `eval(x)` yields exactly one finding on its line |
| AstWalk.JsInnerHtmlFlagged | backend/graph/nodes/ast_tree_sitter.py:194-210 | `el.innerHTML = s` yields a medium `xss_risk` finding |
| AstWalk.Dispatch | backend/graph/nodes/ast_tree_sitter.py:261-268 | Python iff language "python" or a .py path; else JavaScript iff javascript/typescript or a JS/TS extension; else none |
| AstWalk.CollectedEligible | backend/graph/nodes/ast_tree_sitter.py:249-271 | only files of at most 100 000 characters that are dispatched contribute, each finding sound and under its own path |
| AstWalk.Merge | backend/graph/nodes/ast_tree_sitter.py:274-279 | a dict report keeps its other keys and gets the new findings; anything else becomes a dict of only them |
| AstWalk.Walked | backend/graph/nodes/ast_tree_sitter.py:135-138 | a walker that raises returns a prefix of its walk, and the whole walk otherwise |
| AstWalk.AnalyzeFile | backend/graph/nodes/ast_tree_sitter.py:253-271 | one file: skipped over 100 000 characters, dispatched by language or extension, and walked when the parser yields a tree |
| AstWalk.AstTreeSitterNode | backend/graph/nodes/ast_tree_sitter.py:242-283 | unavailable: no change; otherwise only `ast_report` changes, over the first 25 files |
| Collector.SecuritySection | backend/graph/nodes/collector.py:15-57 | starts with "## Security Analysis" |
| Collector.SecuritySectionCounts | backend/graph/nodes/collector.py:15-57 | lists min(5, findings), min(3, critical), min(3, important), min(5, recommendations) items |
| Collector.SecuritySectionShown | backend/graph/nodes/collector.py:15-57 | those first items of each list are in the text |
| Collector.QualitySection | backend/graph/nodes/collector.py:60-82 | starts with the heading and is only the heading when the report is falsy |
| Collector.QualitySectionFacts | backend/graph/nodes/collector.py:60-82 | metric lines right after the heading, then the first min(5, issues) issues |
| Collector.ApiSection | backend/graph/nodes/collector.py:85-122 | "" iff no analysis or neither endpoints nor issues; otherwise starts with its heading |
| Collector.ApiSectionFacts | backend/graph/nodes/collector.py:99-120 | at most 5 endpoints, issues and improvements, the first ones of each |
| Collector.DbSection | backend/graph/nodes/collector.py:125-162 | "" iff no analysis or neither queries nor risks; otherwise starts with its heading |
| Collector.DbSectionFacts | backend/graph/nodes/collector.py:125-162 | at most 5 queries, risks and optimizations, the first ones of each |
| Collector.ExpertSummaryWithoutExperts | backend/graph/nodes/collector.py:186-208 | without API and database findings the summary is heading + security + quality |
| Collector.ExpertSummaryLayout | backend/graph/nodes/collector.py:186-190 | the summary opens with its heading then the security heading |
| Collector.ExpertSummaryHoldsSections | backend/graph/nodes/collector.py:192-208 | the quality, API and database sections are in the summary |
| Collector.CollectorNode | backend/graph/nodes/collector.py:165-222 | `expert_summary` is heading, security, quality, then API and database when non-empty; progress exactly 80 |
| Collector.SkipEmpty | backend/graph/nodes/collector.py:198-206 | appending a part only when non-empty is appending it |
| Synthesis.AgentSectionsBound | backend/graph/nodes/synthesis.py:64-72 | at most one section per agent, each one of Quality, Bugs, Security |
| Synthesis.AgentSectionsMembers | backend/graph/nodes/synthesis.py:64-72 | a section is named iff some agent maps to it; unknown agents are dropped |
| Synthesis.AgentSectionsAllKnown | backend/graph/nodes/synthesis.py:64-72 | with only known agents the sections follow the agents one for one, in order |
| Synthesis.SelectSections | backend/graph/nodes/synthesis.py:63-74 | the loop computes the section names; other non-chat modes give Security, Quality, Bugs |
| Synthesis.FallbackHeaders | backend/graph/nodes/synthesis.py:101-133 | starts with "# Code Review", then the Quality, Bugs and Security headers in that order |
| Synthesis.FallbackLimits | backend/graph/nodes/synthesis.py:101-133 | each group lists the first min(10, n) entries |
| Synthesis.NotesEmpty | backend/graph/nodes/synthesis.py:176-179 | the fixed line is used iff there is no question, vulnerability, metric, issue or bug |
| Synthesis.NotesCount | backend/graph/nodes/synthesis.py:151-176 | exactly min(3, vulnerabilities) + min(2, issues) + min(2, bugs) items |
| Synthesis.NotesQuestion | backend/graph/nodes/synthesis.py:148-149 | a question opens the notes with "Question: …" |
| Synthesis.NotesShown | backend/graph/nodes/synthesis.py:151-176 | the first vulnerabilities, issues and bugs, up to their limits, are in the text |
| Synthesis.NotesNonEmpty | backend/graph/nodes/synthesis.py:136-180 | the notes are never empty |
| Synthesis.FinalText | backend/graph/nodes/synthesis.py:239-243 | model text when non-empty; else chat fallback in chat mode, fallback markdown otherwise |
| Synthesis.FinalTextNonEmpty | backend/graph/nodes/synthesis.py:239-245 | the final report is never empty |
| Synthesis.SynthesisNode | backend/graph/nodes/synthesis.py:183-263 | a non-blank cached text becomes the report at once; otherwise the final text; one log and progress `min(100, p + 30)` on both paths |
| ChatReply.BuildContextSection | backend/graph/nodes/chat_reply.py:84-92 | the loop computes the context section |
| ChatReply.ContextSectionFacts | backend/graph/nodes/chat_reply.py:84-92 | empty iff no docs; otherwise headed, with the first ≤ 5 docs, each text cut to 500 characters |
| ChatReply.Reply | backend/graph/nodes/chat_reply.py:121-133 | the model's non-empty reply, else the fallback notes; never empty |
| ChatReply.ChatReplyNode | backend/graph/nodes/chat_reply.py:56-140 | blank question: only "Please include a question."; otherwise the reply and progress `min(100, p + 5)` |
| Api.SseDecode | backend/app/api/routes.py:46-53 | the event ends with a blank line; its lines, without "data: ", join back to the payload less trailing newlines |
| Api.BlocksAreFenced | backend/app/api/routes.py:63-66 | every block found is the body of a fenced block of the message |
| Api.OneBlockExample | backend/app/api/routes.py:63-66 | a message with one tagged block yields that block's body |
| Api.FirstNonBlankStripped | backend/app/api/routes.py:66-68 | the block chosen is stripped and non-empty |
| Api.CodeFromMessagesFacts | backend/app/api/routes.py:61-69 | the result is stripped and empty only when no message has code or text |
| Api.ExtractCodeFromMessages | backend/app/api/routes.py:61-69 | newest message first, its first non-blank block; else the last message stripped; else "" |
| Api.FirstBlockOf | backend/app/api/routes.py:65-68 | the inner loop returns the first non-blank block, stripped |
| Api.HistoryFromMessages | backend/app/api/routes.py:77-78 | the last 20 messages in order |
| Api.RequestCode | backend/app/api/routes.py:72-74 | the request's code when non-empty |
| Api.RequestCodeEmpty | backend/app/api/routes.py:72-74 | empty iff no code is given and the messages give none |
| Api.ExtractCode | backend/app/api/routes.py:72-74 | computes `RequestCode` |
| Api.ThreadId | backend/app/api/routes.py:96 | body id, else header id, else a fresh id |
| Api.SourceOf | backend/app/api/routes.py:119-124 | the request's source, else "folder" with files or entry, else "pasted" |
| Api.PreparedInputs | backend/app/api/routes.py:111-116 | the prepared state carries the code, mode (default "orchestrator") and agents |
| Api.PreparedHistory | backend/app/api/routes.py:111 | the last 20 messages, in order |
| Api.PreparedSource | backend/app/api/routes.py:119-130 | source, files and folder set when given; nothing has run yet |
| Api.Explain | backend/app/api/routes.py:82-130 | rejected iff no code, not chat, no files and no entry; otherwise the thread id and prepared state |
| Api.ParagraphsFacts | backend/app/api/routes.py:181-184 | paragraphs are stripped, contain no blank line, and every non-blank piece is kept |
| Api.SingleParagraph | backend/app/api/routes.py:181-184 | a report without blank lines is one paragraph |
| Api.ReportEvents | backend/app/api/routes.py:220-223 | the loop emits one event per paragraph, in order |
| Api.StreamEndAsWritten | backend/app/api/routes.py:255-256 | the stream ends with the chat-ready line as written, then ":::progress: 100" |
| Api.ChatReadyMisread | backend/app/api/routes.py:255 | the written line is the UTF-8 bytes of U+1F4AC read as Windows-1254, not the emoji |
| Api.StreamEnd | backend/app/api/routes.py:255-256 | the stream ends with the chat-ready line headed by U+1F4AC, then ":::progress: 100" |
| Api.UploadAgentsFacts | backend/app/api/routes.py:280 | agents are trimmed, comma-free, and every non-blank entry is kept |
| Api.PlainExplain | backend/app/api/explain.py:52-64 | rejected with "Please provide code to analyze." iff the extracted code is empty; otherwise the initial state |
| Api.PlainFallback | backend/app/api/explain.py:109-116 | the report and a newline when there is one, then ":::progress: 100" |
| VectorStore.CollectionName | backend/app/services/qdrant_service.py:22-23 | starts with "code-review-", at most 64 characters, no "/"; exactly the prefix + id for a short id without "/" |
| VectorStore.SlashAndDashCollide | backend/app/services/qdrant_service.py:23 | ids that differ only by "/" against "-" get the same collection |

## Left out

- The LangGraph runtime is not modelled: compilation, `invoke` and `astream_events`, `ToolNode` and the checkpointers. Only the topology and the routing functions are.
- LLM and embedding calls become parameters.
- `State.AgentMessage.ToolMessage`: `toolName` is the `tool_name` attribute read at backend/graph/nodes/llm_experts.py:135, "" when absent. Whether LangChain's tool messages carry that attribute, or only `name`, is outside this model. If they carry only `name`, the merge at llm_experts.py:136-150 sees "" and never applies a tool's result.
  - A model answer is an optional string.
  - The embedder that `get` and `set` use is a function.
  - The tools node's output messages are an argument.
- External analyzers become abstract inputs.
  - semgrep, bandit, radon and vulture become lists of records.
  - The tree-sitter parser becomes an optional `Tree`.
- Each heuristic regex is an uninterpreted predicate on a line. The regexes themselves are not verified.
- The fence regex is replaced by a hand-written scanner of the same semantics.
- Persistence, Redis and Celery are not modelled: `_SQLAlchemyRepo`, `_active_repo`, `RedisSemanticCache`, the pub/sub and the workers.
- Threads run sequentially in the model. The `threading.Lock`s and `asyncio.gather` are not modelled.
- The async event-stream generators are not modelled. Only their helpers, paragraph splitting and end-of-stream lines are.
  - The intermediate progress markers are not modelled.
  - The token streaming of synthesis is not modelled.
- Floating-point arithmetic is over `real`, so `fmean`, the L2 normalisation and cosine are exact. `math.sqrt` is a parameter; `SemanticCache.EmbeddingIsUnit` and `SemanticCache.CosineSelf` require it to be exact where they use it.
- `Text.Lower`: only A-Z are lowered. Python's `str.lower` is Unicode-wide (U+212A KELVIN SIGN lowers to "k", "É" to "é"), so paths, environment values and cache queries with non-ASCII capitals lower differently.
- The digits printed by `:.1f`, `:.2f` and `repr` come from a caller-supplied `Numerals` formatter.
- Python's salted `hash`, sha256, `time.time()` and uuids are parameters.
- Prompt texts sent to the model are not modelled, beyond the cache query's length.
- The cache writes in synthesis and experts are not modelled.
- Node functions both mutate the state dict and return it. The model works on values, so aliasing between the caller's dict and the returned one is not modelled.
- `ChatReply.ChatReplyNode`: the branch where a non-numeric progress falls back to 100 is not modelled, because progress is a `real` here.
- `AstWalk.Walk`: a node's text is taken as its own source text. The source slices the `str` with tree-sitter byte offsets, which differs from it once non-ASCII text precedes the node.
- `AstWalk.AstTreeSitterNode`: the walkers catch their own exceptions and return the findings collected so far (ast_tree_sitter.py:135-138 and 223-226); the model takes where an exception strikes as the parameter `fault`. The node's own `except` (ast_tree_sitter.py:269-271) is not modelled, as nothing it guards raises in the model.
- `Experts.MergeToolOutputs`: a scanner message whose JSON lacks "findings" adds nothing. Other shapes of JSON are not modelled.
- `Complexity.Summary`: radon's blocks are its input. `static_analysis_node` reads a missing radon or a parse error as no blocks; `quality_node` does so only for a missing radon (see `Complexity.QualityNode`).
- `Api.Prepared`: `state["thread_id"]` (routes.py:116) is not modelled, as no graph node reads it.

## Findings

| source | as written | input that shows it | evidently intended | confidence | as-written member | corrected member |
|---|---|---|---|---|---|---|
| backend/app/api/routes.py:255 | the chat-ready line starts with "ğŸ’¬", the UTF-8 bytes F0 9F 92 AC of U+1F4AC decoded as Windows-1254 | any completed `/explain` stream | the line starts with the speech-balloon emoji U+1F4AC | not executed; the bytes match exactly | Api.StreamEndAsWritten, Api.ChatReadyMisread | Api.StreamEnd |
