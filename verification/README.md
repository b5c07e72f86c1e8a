# Verified model of the session engine

This project models, in Dafny, the part of the repository that keeps, rewrites and delivers an
event-sourced session log, together with the small state machines around it, and proves what they
promise.

A session is an append-only log of numbered events. The *surface* is the ordered list of event seqs
that make up the model's history; it is obtained by folding append and replace events. The agent
actor writes the log as bracketed turns and steps. Compaction replaces the head of the surface by one
summary event inside a transaction that may fail at any append. Connections receive the log through
a replay that runs against live publishing.

| file | models |
|---|---|
| SessionEvents, Surface | events, the surface fold, the incremental manager, model history |
| ToolPairing, TokenMeter, RangeSelection | tool-call balance of cuts, prices, the compactable range |
| EventStore, LogCache | the durable log with failing appends and reads, and its in-memory mirror |
| CompactionLock, Compaction, CompactionTheorems | the durable lock, the transaction, and what a commit does to a log |
| AgentLog, AgentStory | well-formed logs, and what the loop is to say in them |
| AgentCompaction, Agent | a compaction on such a log, and the actor loop that produces them |
| StoreNumbering | what the two stores do with the numbers of a rebuilt actor |
| BlockAssembly, Completions | the two accumulations of one delta stream |
| Downlink, Approval | reconnect replay against live publish, and the race that ends a permission prompt |
| WorkerPool, Settings | the per-session worker pool, and the settings manager |
| Toml, TomlParser | the TOML subset: the parser as functions, and its loops |
| TomlRoundTrip, TomlTree | printing and reading back lines, and which texts are accepted with what contents |
| TomlLayout, TomlWriter, TomlDepartures | writing whole trees and parsing them back, and what the subset reads otherwise than meant |
| RingBuffer, Sse, AcpPrompt, ImportClaude | the ring of recent events, stream framing, prompt settlement, transcript import |

Conventions. A store is a sequence with an append that may fail; a socket is the list of frames
written to it; payloads are datatypes instead of JSON, so a payload that does not decode is one built
with another constructor. Time, randomness, ids, model output, tool output and cancellations are
parameters ("scripts" for the actor loop); the summarizer is a function of the messages it is shown. Concurrent code is a class whose methods are the critical
sections of the source, with the positions of its goroutines kept as state: any order of calls is an
interleaving, and `Valid()` is the invariant of every run.

## Where the code departs from what it says

Each of these is stated exactly in the model.

- The finish flush of the block assembler drains everything only when at most two blocks are open
  (`BlockAssembly.FlushDrainsIff`).
- A seq is consumed by an append that fails; afterwards the log cannot fold past that point
  (`AgentLog.PlainFoldsIff`, `EventStores.EventStore.Append`).
- The log mirror stays a prefix only under serialized emits (`LogCaches.MirrorPrefixIff`).
- A wildcard subscription loses events to deduplication across sessions
  (`Downlink.DedupLosesNothingIff`); events without a positive seq are sent twice
  (`Downlink.SentTwiceIff`); the replay is increasing exactly when no buffered event goes below what was
  sent before it (`Downlink.ReplayRisingIff`, `Downlink.StoredRisingIff`).
- A history query that fails counts as an empty history: the connection stays open and goes live without
  what was published before it registered (`Downlink.GapFreeIff`, `Downlink.FailedQueryLeavesGap`).
- An event another writer appends after the recheck can leave a log that does not fold past the
  checkpoint (`CompactionTheorems.LateCheckpointIff`, `CompactionTheorems.LateRewriteBreaks`).
- A turn left open by a crash is never closed; the next turn starts inside it (`Agents.Reopen`,
  `Agents.CrashedTurnReopens`).
- A seed read that fails restarts the numbering at zero: SQLite refuses the events until the counter has
  caught up, bbolt writes them over the oldest ones (`StoreNumbering.SeedReadIff`).
- A compaction is accepted on content alone and may raise the total price by up to three tokens
  (`CompactionTheorems.TransactionPrice`).
- The end written after a failure carries the caller's owner, the one written by a commit the owning
  turn (`Compaction.CloseFailure`).
- A permission prompt resolved before it is staged stays on the replay list for good
  (`Approval.ApprovalDesk.RegisterHost`).
- A body still starts after the pool was closed exactly when its task had passed the close check
  (`WorkerPool.StartsAfterClose`, `WorkerPool.SessionWorkerPool.DoorOpens`); a task queued when its consumer
  exits is never settled unless a cancel marks it (`WorkerPool.Stranded`, `WorkerPool.LeftInQueue`).
- A settings token taken before the first document load survives a load that changes its section
  (`Settings.Manager.LoadDocument`).
- A numeric escape in a TOML string leaves its digits in the value (`TomlDepartures.NumericEscapeIff`),
  and two headers are confused when their segments fall into the same pieces at NUL
  (`TomlDepartures.HeaderIdsIff`).
- An imported transcript with tool results has a surface the compaction rejects as corrupt
  (`ImportClaude.ImportedPairedIff`).

## Model

| member | source | states |
|---|---|---|
| Surface.AssertProvenance | backend/pkg/session/surface.go:238-264 | accepted exactly when the source list is distinct, earlier than the event, covers every shadowed seq and is empty only for an assistant message |
| Surface.PlanSurfaceEvent | backend/pkg/session/surface.go:171-321 | computes the plan: wrong seq, missing or malformed marker, unknown range, bad provenance or a tool rewrite that changes more than content are each refused |
| Surface.ToolRewriteIff | backend/pkg/session/surface.go:305-346 | a tool result may stand in for surface entries exactly when there is one, a tool result of the log, and the two agree in turn, step, role, call ids, error flags and every other field but the content of their blocks |
| Surface.FoldSurface | backend/pkg/session/surface.go:48-63 | the loop over the whole log computes the fold |
| Surface.FoldSnoc | backend/pkg/session/surface.go:48-63 | folding one more event is one step over the fold so far, so the batch fold can be taken incrementally |
| Surface.FoldPrefix | backend/pkg/session/surface.go:48-63 | a log that folds folds at every prefix |
| Surface.FoldInWindow | backend/pkg/session/surface.go:139-159 | the surface holds only seqs of events in the log, so indexing by node never leaves it |
| Surface.PlanPrefix | backend/pkg/session/surface.go:101-137 | planning over the whole log and over the prefix before the event give the same verdict, which is what lets a cached plan be applied |
| Surface.Conservation | backend/pkg/session/surface.go:139-159 | every surface event of the log is counted exactly once among current nodes and shadowed lists |
| Surface.NodesDistinct | backend/pkg/session/surface.go:139-159 | surface nodes are pairwise distinct |
| Surface.ExactlyOnePlace | backend/pkg/session/surface.go:139-159 | each surface seq is either a current node or in exactly one replacement's shadowed list, never both and never twice |
| Surface.ShadowedGone | backend/pkg/session/surface.go:139-159 | a shadowed seq never comes back to the surface |
| Surface.ApplySurfacePlan | backend/pkg/session/surface.go:139-159 | the in-place splice yields the applied fold state |
| Surface.SurfaceManager.ProcessDelta | backend/pkg/session/surface.go:117-137 | after any interleaving the incremental state is the batch fold of the log, with a matching cached plan applied instead of planned again |
| Surface.SurfaceManager.ValidateNext | backend/pkg/session/surface.go:101-115 | accepts the next event exactly when the log with it folds |
| Surface.SurfaceManager.Nodes | backend/pkg/session/surface.go:83-89 | the incremental nodes are the nodes of the batch fold of the whole log, or an error exactly when it does not fold |
| Surface.SurfaceManager.ReplaceGeneration | backend/pkg/session/surface.go:91-97 | the generation is the batch fold's generation |
| Surface.SurfaceManager.Grow | backend/pkg/session/surface.go:77-82 | the log may grow, with or without a validated candidate, and the manager stays in step |
| Surface.DeriveMessages | backend/pkg/session/events.go:485-508 | on success the messages are, in node order, the own messages of the surface events word for word, only assistant messages without content left out; it fails exactly when an event is of an unknown kind that may not be ignored, the log does not fold, or a node carries the payload of another kind |
| Surface.DerivedMeaning | backend/pkg/session/events.go:485-508 | the same of the projection as a function, said of the events alone |
| SessionEvents.ProjectMeaning | backend/pkg/session/events.go:510-548 | what one event contributes: an error on the payload of another kind, nothing for an assistant message without content, else its own message |
| ToolPairing.EventToolDelta | backend/pkg/compaction/toolpairing.go:17-36 | a call opens one per tool-call block, a result closes one, an undecodable assistant message is an error |
| ToolPairing.CutBalances | backend/pkg/compaction/toolpairing.go:41-65 | fails exactly when a node has no event, does not decode, or a result precedes its call; otherwise returns the balance of every cut |
| ToolPairing.SpliceCut | backend/pkg/compaction/toolpairing.go:41-65 | every cut of a spliced surface has the open-call depth of the cut it comes from |
| ToolPairing.ReplaceKeepsPairing | backend/pkg/compaction/compactor.go:343-356 | replacing a span with balanced ends by one neutral node keeps the surface clean and the balance of every cut outside the span |
| TokenMeter.EstimateContentTokens | backend/pkg/llm/tokenmeter.go:42-76 | the recursive estimate over nested blocks |
| TokenMeter.TokensBound | backend/pkg/llm/tokenmeter.go:42-76 | the estimate lies between a quarter of the characters and that plus three quarters for each text, and four for each block, nested ones included |
| TokenMeter.EstimateMessageTokens | backend/pkg/llm/tokenmeter.go:171-177 | role overhead plus content |
| TokenMeter.MeasureNodes | backend/pkg/compaction/meter.go:18-40 | one price per node, or an error for a node without an event |
| TokenMeter.PricesMeaning | backend/pkg/compaction/meter.go:18-40 | a node has a price exactly when it has an event with the payload of its kind; the price is its content and four, or nothing for one that says nothing |
| TokenMeter.PricesConcat | backend/pkg/compaction/meter.go:18-40 | prices of a concatenated surface are the concatenated prices |
| TokenMeter.SumConcat | backend/pkg/compaction/compactor.go:709-722 | totals are additive over spans |
| RangeSelection.SelectCompactableRange | backend/pkg/compaction/compactor.go:234-273 | the two loops compute the budget cut and then the latest balanced cut at or before it; the error cases are told apart |
| RangeSelection.SelectionIsLatest | backend/pkg/compaction/compactor.go:234-273 | for non-negative prices the chosen end is the latest balanced cut whose kept tail is priced at least RetainTokens, and nothing is chosen exactly when there is none |
| RangeSelection.SelectedIsValid | backend/pkg/compaction/compactor.go:319-363 | a selected range starts at the head and is accepted by the region validation |
| RangeSelection.ValidateSurfaceRegion | backend/pkg/compaction/compactor.go:319-363 | accepts exactly the ranges whose ends are on the surface, in order, with both end cuts balanced |
| RangeSelection.BudgetCutUnique | backend/pkg/compaction/compactor.go:246-257 | the budget loop's result is determined by its two defining inequalities |
| EventStores.EventStore.Append | backend/pkg/agent/loop.go:277-293 | a seq is consumed whether or not the append succeeds; a strict store refuses every event after a lost one |
| EventStores.EventStore.GetEvents | backend/pkg/agent/loop.go:478-514 | a query returns the stored events from a seq on, or fails |
| CompactionLock.LockMeaning | backend/pkg/compaction/compactor.go:824-845 | the lock is held exactly when some start has no end and no end-seed behind it |
| CompactionLock.InspectCompactionEntryState | backend/pkg/compaction/compactor.go:772-805 | one backward scan finds the open turn, the last bracket and the last end-seed |
| CompactionLock.ScanIsMachine | backend/pkg/compaction/compactor.go:772-822 | the backward scan and its seq comparison give the answer of a forward lock machine |
| CompactionLock.ActiveCompaction | backend/pkg/compaction/compactor.go:824-845 | returns the bracket that holds the lock, if any |
| Compaction.AssertSelectedSpanStable | backend/pkg/compaction/compactor.go:561-591 | passes exactly when there is no reload, or the reloaded log folds and still holds the span, between balanced cuts, at the prepared prices |
| Compaction.RegionMessages | backend/pkg/compaction/compactor.go:726-753 | the own messages of the shadowed events in order, word for word; it fails exactly when a seq has no event or one with the payload of another kind |
| Compaction.CommitBody | backend/pkg/compaction/compactor.go:595-662 | summary then checkpoint, the checkpoint naming start, summary and every shadowed seq as sources, with other writers in between |
| Compaction.CloseFailure | backend/pkg/compaction/compactor.go:689-706 | at most one error-end, carrying the caller's owner |
| Compaction.CompactTransaction | backend/pkg/compaction/compactor.go:400-531 | for every pattern of append failures and of appends by other writers, before and after the recheck and between its own, the events the transaction appended itself are a fixed prefix of start, summary, checkpoint, end with an optional error-end; it commits exactly when nothing hinders it and no append is lost, and then the checkpoint is the summarizer's answer to the messages of the span, between its opening and its closing text, strictly cheaper than what it shadows; every failure has its code |
| CompactionTheorems.CheckpointProvenance | backend/pkg/compaction/compactor.go:595-662 | the source list a commit writes always passes provenance validation |
| CompactionTheorems.CheckpointIff | backend/pkg/session/surface.go:171-321 | whatever was appended before it, a checkpoint folds exactly when both ends of its span are on the surface in order and everything between is in its source list; it then replaces exactly that |
| CompactionTheorems.LateCheckpointIff | backend/pkg/compaction/compactor.go:477-531 | the same of a whole commit: the exact condition, over anything other writers append after the recheck, for the log to fold past the checkpoint |
| CompactionTheorems.LateRewriteBreaks | backend/pkg/compaction/compactor.go:556-591 | an input on which it fails: another writer replaces the selected message between recheck and checkpoint |
| CompactionTheorems.CommitFolds | backend/pkg/compaction/compactor.go:433-531 | a commit with log-only events of others anywhere in it takes a foldable log to a foldable log whose surface is the old one with exactly the selected span replaced by one seq |
| CompactionTheorems.CommitKeepsPairing | backend/pkg/compaction/compactor.go:433-531 | a commit keeps tool pairing and the balance of every cut outside the span |
| CompactionTheorems.CommitDerives | backend/pkg/session/events.go:485-508 | model history after a commit is the history before the span, the summary, the history after it, word for word |
| CompactionTheorems.SummaryInHistory | backend/pkg/compaction/compactor.go:864-874 | and that one message holds every block of the summarizer's answer in order between the opening and the closing text |
| CompactionTheorems.CommitPrice | backend/pkg/compaction/compactor.go:487-498 | a commit over a span that still costs what was recorded changes the total price by framed + 4 - shadowed, so by at most +3, and lowers it exactly when framed + 4 is below shadowed |
| CompactionTheorems.TransactionPrice | backend/pkg/compaction/compactor.go:400-531 | a successful transaction under the heuristic meter over any foldable log moves that log's total price so; prices, their sum and the cheaper summary all follow from its success |
| CompactionTheorems.ReloadedCommitPrice | backend/pkg/compaction/compactor.go:477-531 | with the recheck the same relative to the log of the recheck, whatever other writers appended before it |
| CompactionTheorems.ReloadedCommitFolds | backend/pkg/compaction/compactor.go:477-531 | with the recheck a successful transaction leaves a foldable log whose surface is that of the recheck with exactly the selected span replaced, whatever other writers appended before it |
| CompactionTheorems.LockAfterTransaction | backend/pkg/compaction/compactor.go:689-706 | from its start to the recheck the transaction's own start holds the lock; afterwards it is held exactly when none of its ends was appended, and the scan a next transaction begins with finds this very start or no compaction |
| LogCaches.FromSuffix | backend/pkg/agent/loop.go:478-514 | querying behind the last mirrored seq returns exactly the part of the log not mirrored |
| LogCaches.MirrorPrefixIff | backend/pkg/agent/loop.go:448-463 | mirroring one event keeps the mirror a prefix exactly when nothing before it is missing |
| LogCaches.LogCache.CacheAppend | backend/pkg/agent/loop.go:448-463 | drops an event that is not newer than the mirror; a complete mirror stays complete |
| LogCaches.LogCache.CachedSessionEvents | backend/pkg/agent/loop.go:478-514 | a read whose query succeeds returns exactly the durable log, any other a prefix of it |
| LogCaches.LogCache.InvalidateLogCache | backend/pkg/agent/loop.go:465-472 | a cold cache is coherent with any log |
| AgentLog.InsideItsStep | backend/pkg/agent/loop.go:241-364 | in a bracketed log every assistant and tool event lies inside the step it names |
| AgentLog.TurnCounts | backend/pkg/agent/loop.go:333-364 | turns are numbered consecutively, started once each and ended once unless still open |
| AgentLog.StepCounts | backend/pkg/agent/loop.go:333-364 | the steps of every turn are numbered consecutively from 1, each started once and ended once unless still open |
| AgentLog.OpenTurnBreaks | backend/pkg/agent/loop.go:333-364 | a turn started inside an open turn breaks the brackets, and nothing appended later mends them |
| AgentLog.EmitKeepsSound | backend/pkg/agent/loop.go:241-328 | one admitted, well-placed emit keeps the log bracketed, foldable and paired and in step with the machine |
| AgentLog.PlainFoldsIff | backend/pkg/agent/loop.go:277-293 | a log of the loop's own events folds exactly when its seqs have no gap, so one lost append makes every later event unfoldable |
| AgentLog.TailBalancedIff | backend/pkg/compaction/toolpairing.go:41-65 | the whole surface is a balanced cut exactly when no tool call is open |
| AgentLog.NeutralKeepsSound | backend/pkg/agent/loop.go:241-328 | events other writers append off the surface disturb nothing |
| AgentCompaction.TransactionKeepsSound | backend/pkg/agent/loop.go:545-578 | a compaction of any outcome leaves a sound log sound and the open calls untouched |
| Agents.Agent.ValidateTransition | backend/pkg/agent/loop.go:333-364 | refuses a boundary out of order and otherwise moves the machine, before anything is stored |
| Agents.Agent.EmitEvent | backend/pkg/agent/loop.go:245-328 | numbers, stamps, persists and mirrors one event; a suitable event keeps the run sound |
| Agents.Agent.EmitBoundary | backend/pkg/agent/loop.go:431-441 | a boundary that cannot be written forces the machine idle |
| Agents.Agent.FinishTurnReason | backend/pkg/agent/loop.go:691-704 | the machine is idle afterwards even when neither end reaches the store |
| Agents.Agent.StreamStep | backend/pkg/agent/loop.go:917-1003 | every outcome of reading the stream, with partial output, abort and fatal error |
| Agents.Agent.RunTools | backend/pkg/agent/loop.go:1107-1201 | one result per call while the turn lives; a cancelled turn leaves its remaining calls open for good |
| Agents.Agent.CollectCalls | backend/pkg/agent/loop.go:1097-1103 | the tool-call blocks of a reply, in order |
| Agents.Agent.OpenStep | backend/pkg/agent/loop.go:797-860 | a step opens with its start, then asks the model with the history of the log as it then stands, then takes the header snapshot |
| Agents.Agent.RunOneTool | backend/pkg/agent/loop.go:1107-1180 | one call: its event, then its result with the id of the call and the output and error flag of the tool |
| Agents.Agent.CompleteStep | backend/pkg/agent/loop.go:1005-1215 | the turn goes on exactly behind the results of tools, is done exactly behind a reply no tool answers, and ends failed on an error finish; the log gains exactly the tale of the step |
| Agents.Agent.RunStep | backend/pkg/agent/loop.go:804-1215 | one step from its start to its end or the exit it takes, and exactly what it says in the log |
| Agents.Agent.StepLoop | backend/pkg/agent/loop.go:762-1222 | steps repeat until the turn is over, the limit a step hit is remembered, unless it is done normally the machine is idle, and the log gains exactly the tale of the passes |
| AgentStory.LoopLeaves | backend/pkg/agent/loop.go:762-1222 | a step loop leaves its turn done, with a reply no tool is to answer as the last thing said, or ended as aborted or failed |
| AgentStory.TurnEnds | backend/pkg/agent/loop.go:736-1246 | every turn ends exactly once, as its last event; completed or at the limit exactly when its last step finished with a reply no tool is to answer, so never right behind a tool result; at the limit exactly when one of its steps hit it |
| Agents.Agent.MaybeCompact | backend/pkg/agent/loop.go:545-578 | on a sound log it compacts exactly when the log can be read and there is a head worth compacting, which one checkpoint then replaces; otherwise the surface is as before |
| Agents.CompactsWhenDue | backend/pkg/agent/loop.go:545-578 | the transaction over the selected head commits exactly when no bracket holds the lock and the framed summary costs less than the head |
| Agents.Agent.PickHead | backend/pkg/agent/loop.go:545-567 | a head is selected exactly when the log can be read and the selection finds one |
| Agents.Agent.EndTurn | backend/pkg/agent/loop.go:1219-1243 | the turn end, then the title once, then over that log the compaction when one is due |
| Agents.Agent.ActorTurn | backend/pkg/agent/loop.go:736-1246 | whatever happens in a turn, the loop is idle when it reads its inbox again; without a lost append the log gained exactly the tale of the turn, and behind a turn that ran to its end the session is titled and compacted exactly when that is due |
| Agents.Agent.ActorLoop | backend/pkg/agent/loop.go:734-1246 | over every inbox, model, tool and store behaviour: idle between turns, and without lost appends a log that is bracketed, numbered, foldable and paired if it was before and that gained exactly the tale of the inbox; a log that ended inside a turn is never bracketed again |
| Agents.Agent.RequestHistory | backend/pkg/agent/loop.go:812-826 | the request carries the model history of the durable log |
| Agents.SeedSeqFrom | backend/pkg/agent/loop.go:38-62 | the next seq, the turn counter and the warm cache of a rebuilt actor; a read that fails counts as an empty log |
| Agents.Agent.constructor | backend/pkg/agent/loop.go:162-199 | opens a session over any stored log: it is sound for the new machine exactly when it is paired and ends outside every turn |
| Agents.Reopen | backend/pkg/agent/loop.go:48-62 | a paired, bracketed stored log is bracketed after the reopened run exactly when its last turn was closed |
| Agents.CrashedTurnReopens | backend/pkg/agent/loop.go:48-62 | a stored log on which it is not: one turn start |
| StoreNumbering.StrictAfter | backend/pkg/storage/store_sqlite.go:698-707 | of events numbered from a seed the SQLite store keeps exactly those from its next free seq on |
| StoreNumbering.KeyedAfter | backend/pkg/storage/store_bbolt.go:104-119 | the bbolt store holds at each seq the last event written there |
| StoreNumbering.SeedReadIff | backend/pkg/agent/loop.go:42-46 | a rebuilt actor's events are all stored behind the old ones exactly when its seed read succeeded or there was nothing to read |
| StoreNumbering.FailedSeedRead | backend/pkg/agent/loop.go:42-46 | otherwise SQLite refuses as many events as it holds and bbolt overwrites its oldest ones |
| Agents.LastTurnScanned | backend/pkg/agent/loop.go:38-62 | the last started turn is what the bracket scan says |
| Agents.CompactionEffect | backend/pkg/agent/loop.go:545-578 | what one compaction does to a sound log: soundness, open calls, and the head replaced exactly on success |
| BlockAssembly.IngestWellFormed | backend/pkg/llm/stream.go:142-264 | every chunk keeps the open keys distinct and exactly the active ones |
| BlockAssembly.BlockAssembler.IngestChunk | backend/pkg/llm/stream.go:142-264 | the assembler's updates compute the chunk function |
| BlockAssembly.BlockAssembler.CommitBlock | backend/pkg/llm/stream.go:118-131 | removes the first occurrence of the key and appends its block |
| BlockAssembly.BlockAssembler.FlushRemainders | backend/pkg/llm/stream.go:259-263 | the flush ranges over the slice its own commits shift |
| BlockAssembly.FlushDrainsIff | backend/pkg/llm/stream.go:259-263 | the finish flush leaves nothing open exactly when at most two blocks are open |
| Completions.BuiltMeaning | backend/pkg/llm/openai_completions.go:431-568 | a block is the concatenation of its key's fragments with the first non-empty id and name |
| Completions.AssemblerTracks | backend/pkg/llm/stream.go:142-264 | the assembler fed with the emitted deltas holds exactly the adapter's buffers, chunk by chunk |
| Completions.EndsCommitInOrder | backend/pkg/llm/openai_completions.go:470-502 | the deferred block ends commit the blocks in first-seen order |
| Completions.StreamsAgree | backend/pkg/llm/openai_completions.go:431-572 | for every delta stream ended by the terminator the assembled blocks are the carried blocks: one per key, in first-seen order, nothing left open |
| Completions.CompletionsStream.OnDelta | backend/pkg/llm/openai_completions.go:514-572 | one wire delta: reasoning, text, then tool calls, each emitted and buffered |
| Completions.CompletionsStream.OnToolCall | backend/pkg/llm/openai_completions.go:544-568 | one indexed fragment opens its call or extends it; id and name are kept once set |
| Completions.CompletionsStream.FinishStream | backend/pkg/llm/openai_completions.go:470-502 | the end chunks are emitted once, in first-seen order; the reason is stop, tool-calls, max-tokens or error exactly as the wire reason and an empty stream demand |
| Completions.CompletionsStream.CarriedIsBuilt | backend/pkg/llm/openai_completions.go:476-490 | the block carried on an end chunk is the one built from its key's fragments |
| Downlink.EnqueueAllStream | backend/pkg/gateway/websocket_downlink.go:110-131 | a connection that is not closed has received every frame in order; nothing is dropped quietly |
| Downlink.EnqueueIff | backend/pkg/gateway/websocket_downlink.go:110-131 | one frame: an open connection stays open and gains exactly that frame exactly when fewer than 1024 frames are queued and the queued sizes with its own are at most 4194304; otherwise it is closed with its queue as it was |
| Downlink.EnqueueAllIff | backend/pkg/gateway/websocket_downlink.go:110-131 | many frames: open afterwards exactly when there was room for all of them, which it then has in order |
| Downlink.EnqueueAllStops | backend/pkg/gateway/websocket_downlink.go:110-131 | without room for all of them an open connection has those before the first that does not fit |
| Downlink.DedupKeeps | backend/pkg/gateway/websocket_downlink.go:412-440 | deduplication drops an event only for another one with the same positive seq |
| Downlink.DedupSound | backend/pkg/gateway/websocket_downlink.go:412-440 | nothing is invented and no positive seq is sent twice |
| Downlink.DedupLosesNothingIff | backend/pkg/gateway/websocket_downlink.go:418-436 | no event is lost to deduplication exactly when no two different events share a positive seq: false across sessions |
| Downlink.SentTwiceIff | backend/pkg/gateway/websocket_downlink.go:400-438 | an event in both snapshot and buffer is sent twice exactly when its seq is not positive |
| Downlink.SelectFacts | backend/pkg/gateway/websocket_downlink.go:226-234 | a query that answers returns exactly the wanted stored events, by seq |
| Downlink.DedupSplits | backend/pkg/gateway/websocket_downlink.go:412-440 | for one session the replay is the whole snapshot followed by the buffered events it does not cover |
| Downlink.ReplayRisingIff | backend/pkg/gateway/websocket_downlink.go:412-440 | over any buffer, in whatever order its events were published, the replay is strictly increasing in positive seqs exactly when no event it adds goes below the snapshot or below an event added before |
| Downlink.StoredRisingIff | backend/pkg/gateway/websocket_downlink.go:412-440 | over a store that keeps each session in seq order: exactly when no buffered event lies behind the cursor while the snapshot holds a positive seq, and the added events are in seq order |
| Downlink.EnqueueReplay | backend/pkg/gateway/websocket_downlink.go:412-439 | the two loops over snapshot and buffer, remembering the seqs sent |
| Downlink.FinishIsLive | backend/pkg/gateway/websocket_downlink.go:226-234 | no gap: after a query that answered, a connection not closed when its replay finishes has every published event it asked for, under every interleaving and every order of publishing |
| Downlink.FailedIsLive | backend/pkg/gateway/http_router.go:154-163 | after a query that failed it has what was published since it registered, and nothing else |
| Downlink.GapFreeIff | backend/pkg/gateway/websocket_downlink.go:217-234 | a connection not closed has no gap exactly when its query answered, or every wanted event published before it registered was published again since; with nothing published twice, exactly when there was no such event |
| Downlink.FailedQueryLeavesGap | backend/pkg/gateway/http_router.go:154-163 | a run on which a published, wanted event is missing from an open live connection |
| Downlink.DownlinkHub.RegisterMuxPending | backend/pkg/gateway/websocket_downlink.go:392-398 | registered with an empty buffer and the staged frames, all of them or closed when they exceed a bound, before the query |
| Downlink.DownlinkHub.StageReplay | backend/pkg/gateway/websocket_downlink.go:370-377 | an approval prompt joins the frames every new connection is shown first |
| Downlink.DownlinkHub.UnstageReplay | backend/pkg/gateway/websocket_downlink.go:379-390 | the first frame of a resolved prompt leaves the list, the others keep their order |
| Downlink.DownlinkHub.BroadcastSessionEvent | backend/pkg/gateway/websocket_downlink.go:295-313 | each connection subscribed to the session or to all gets the event: in its buffer while it replays, else in its stream if its queue has room, and is closed if not; every other connection is as before |
| Downlink.DownlinkHub.Replay | backend/pkg/gateway/http_router.go:154-163 | the query runs at any moment between registering and finishing; a store that cannot answer counts as an empty history |
| Downlink.DownlinkHub.FinishMuxReplay | backend/pkg/gateway/websocket_downlink.go:412-440 | snapshot before buffer without repeats, then live; open afterwards exactly when the queue had room for all of it; an unregistered connection is left alone |
| Downlink.DownlinkHub.Pump | backend/pkg/gateway/websocket_downlink.go:67-92 | the writer takes the oldest frame and changes nothing else |
| Downlink.DownlinkHub.UnregisterMux | backend/pkg/gateway/websocket_downlink.go:462-468 | leaves both tables and accepts no more frames |
| Approval.OneVerdict | backend/pkg/gateway/http_router.go:2131-2185 | at most one outcome is announced, the asker returns the verdict of whoever took the entry, and an asker whose timer found the entry gone has a decision coming |
| Approval.HostsAnnounce | backend/pkg/gateway/http_router.go:2103-2121 | announcing keeps each host's frames in order: one outcome per call |
| Approval.HostsPublish | backend/pkg/gateway/http_router.go:2160-2165 | a prompt follows its own outcome on a stream only when it was broadcast after being decided |
| Approval.ApprovalDesk.Register | backend/pkg/gateway/http_router.go:2131-2137 | the entry exists before the prompt is staged |
| Approval.ApprovalDesk.Stage | backend/pkg/gateway/websocket_downlink.go:373-377 | the prompt joins the replay list |
| Approval.ApprovalDesk.Timeout | backend/pkg/gateway/http_router.go:2172-2186 | whoever removes the entry decides; a timer that loses finds a decision in the channel or about to be sent |
| Approval.ApprovalDesk.Receive | backend/pkg/gateway/http_router.go:2167-2171 | the decision received is the verdict of the racer that took the entry |
| Approval.ApprovalDesk.Respond | backend/pkg/gateway/http_router.go:1212-1240 | the decision a text stands for, anything unknown cancelling; taking the entry and posting the decision are one section; an unknown call changes nothing |
| Approval.ApprovalDesk.AnnounceRespond | backend/pkg/gateway/http_router.go:1243-1253 | allowed, denied or cancelled is announced as the decision says |
| Approval.ApprovalDesk.CancelSession | backend/pkg/gateway/http_router.go:2191-2207 | takes exactly the pending entries of the session |
| Approval.ApprovalDesk.PostCancel | backend/pkg/gateway/http_router.go:2208-2214 | the send that may drop never does: the buffer is free |
| Approval.ApprovalDesk.ResolvePermission | backend/pkg/gateway/http_router.go:2103-2121 | announces on every host stream and takes the prompt off the replay list in one section |
| Approval.ApprovalDesk.RegisterHost | backend/pkg/gateway/websocket_downlink.go:444-460 | a new host sees the prompt of a decided call exactly when the outcome was announced before the staging |
| Approval.ApprovalDesk.Unstage | backend/pkg/gateway/websocket_downlink.go:381-390 | removes the first frame of the call and keeps the others in order |
| WorkerPool.DoneMeans | backend/core/worker.go:195-254 | done closes at most once; on an open pool an uncancelled task is done only after its body ended; a task marked before its handle was registered never runs |
| WorkerPool.RunsOnce | backend/core/worker.go:195-254 | each body starts at most once |
| WorkerPool.OneAtATime | backend/core/worker.go:158-191 | at most one body of a session runs at a time |
| WorkerPool.Quota | backend/core/worker.go:214-217 | at most limit bodies run at once |
| WorkerPool.Start | backend/core/worker.go:158-254 | bodies of one session start in queue order, each after the previous one ended |
| WorkerPool.WakePost | backend/core/worker.go:111-121 | no lost wake-up: an idle consumer with work has a token or a submitter about to post one |
| WorkerPool.OnwardTrans | backend/core/worker.go:158-191 | what every step keeps is kept by every run: tasks stay, exited consumers stay, tasks not taken before the exit are never taken, and on a closed pool only what was past the close check can start |
| WorkerPool.Stranded | backend/core/worker.go:158-191 | from the moment a session's consumer has exited, a task of it not yet taken never runs and its signal is closed exactly when a cancel marked it |
| WorkerPool.StartsAfterClose | backend/core/worker.go:205-235 | a body that starts after the close channel closed was then uncancelled and past the close check |
| WorkerPool.SessionWorkerPool.DoorOpens | backend/core/worker.go:211-235 | and such a body does start as soon as a slot is free |
| WorkerPool.StartedAfterClose | backend/core/worker.go:205-235 | a run in which a body starts on a closed pool |
| WorkerPool.LeftInQueue | backend/core/worker.go:158-191 | a run in which a task is left in the queue, its signal open, or closed by a cancel |
| WorkerPool.SessionWorkerPool.Submit | backend/core/worker.go:75-109 | the three refusals, then one new task and at most one consumer per session |
| WorkerPool.SessionWorkerPool.Append | backend/core/worker.go:111-113 | the place in the queue is fixed here |
| WorkerPool.SessionWorkerPool.Pop | backend/core/worker.go:173-189 | the head of the queue, or back to waiting |
| WorkerPool.SessionWorkerPool.Acquire | backend/core/worker.go:215-217 | one more slot in use, never above the limit |
| WorkerPool.SessionWorkerPool.RegisterHandle | backend/core/worker.go:226-235 | the body starts unless the cancel mark came first |
| WorkerPool.SessionWorkerPool.Settle | backend/core/worker.go:196-201 | done closes once and the consumer is free |
| WorkerPool.SessionWorkerPool.MatchTasks | backend/core/worker.go:270-278 | exactly the tracked tasks of the owner, or of the session, leave the task table |
| WorkerPool.SessionWorkerPool.FilterQueue | backend/core/worker.go:293-310 | the matched tasks leave the queue, the others keep their order |
| WorkerPool.SessionWorkerPool.Mark | backend/core/worker.go:311-321 | marks, notifies a running body and closes done |
| WorkerPool.KeptMeaning | backend/core/worker.go:293-310 | the filter keeps exactly the unmatched tasks, and a queue without a match as it was |
| WorkerPool.SessionWorkerPool.CancelWhere | backend/core/worker.go:270-322 | a whole cancel: every tracked match is out of table and queue, marked, its signal closed once, its running body notified; every other task keeps its record and its queue place |
| WorkerPool.SessionWorkerPool.CancelSession | backend/core/worker.go:262-268 | cancelling a session leaves tasks and queues of other sessions as they were; no session is the empty one |
| WorkerPool.SessionWorkerPool.CancelOwner | backend/core/worker.go:256-260 | cancelling an owner leaves the tasks of other owners as they were, in their queues |
| WorkerPool.SessionWorkerPool.NextRound | backend/core/worker.go:184-189 | a closed pool ends the consumer after the task in hand, whatever is still queued |
| WorkerPool.SessionWorkerPool.FinishClose | backend/core/worker.go:336-343 | closing keeps every invariant, with tasks still queued |
| Settings.DeepEqualIff | backend/pkg/settings/settings.go:519-566 | the comparison that gates notifications and revisions is true exactly on equal values |
| Settings.MergeTakesOver | backend/pkg/settings/settings.go:453-470 | what the upper layer sets is the result |
| Settings.MergeKeepsUnder | backend/pkg/settings/settings.go:453-470 | where the upper layer says nothing the lower one shows through |
| Settings.MergeInvents | backend/pkg/settings/settings.go:453-470 | a path bound by neither layer is not bound |
| Settings.MergeOrderMatters | backend/pkg/settings/settings.go:349-356 | an input on which the two bracketings of three layers differ |
| Settings.MergeOrderIff | backend/pkg/settings/settings.go:453-470 | the two bracketings give the same value exactly when at every key bound by all three layers a middle value that is no object stands between objects only where the upper covers the lower, and common objects agree inside |
| Settings.CoversIff | backend/pkg/settings/settings.go:453-470 | merging leaves the upper layer unchanged exactly when it binds every key of the lower one, and so on inside common objects |
| Settings.MergeLayers | backend/pkg/settings/settings.go:453-470 | the in-place loop computes the merge |
| Settings.SchemaDefaults | backend/pkg/settings/settings.go:473-507 | the loop over a schema collects its defaults |
| Settings.DefaultsIff | backend/pkg/settings/settings.go:473-507 | leaf by leaf the collected defaults hold exactly what the first explicit default on the way declares |
| Settings.ResolvedLeaf | backend/pkg/settings/settings.go:349-356 | leaf by leaf the user section goes over the base layer and that over the defaults, and nothing else is bound |
| Settings.Manager.Effective | backend/pkg/settings/settings.go:349-356 | what a reader of a namespace sees at a path: the document's own value, else that of the base layer, else the one the schema declares |
| Settings.SetThenGet | backend/pkg/settings/settings.go:380-412 | reading a path just set gives the value |
| Settings.UnsetThenGet | backend/pkg/settings/settings.go:380-412 | a path just unset is absent |
| Settings.EditKeepsOthers | backend/pkg/settings/settings.go:380-412 | an edit changes nothing at unrelated paths |
| Settings.RollsBack | backend/pkg/settings/settings.go:296-304 | taking a staged section back restores the document, whether or not there was one before |
| Settings.Manager.Register | backend/pkg/settings/settings.go:187-210 | a malformed or duplicate namespace is refused; a new one starts at revision 0, resolved |
| Settings.Manager.Write | backend/pkg/settings/settings.go:285-321 | a refused persist leaves document, snapshot, revision and resolved value unchanged; a commit bumps the revision once and notifies exactly on a changed value |
| Settings.Manager.Mutate | backend/pkg/settings/settings.go:255-321 | the checks in order; with an expected revision the edits apply to the very section that stood at that revision, so no write in between is lost |
| Settings.Manager.Set | backend/pkg/settings/settings.go:571-612 | the same for a wholesale replacement |
| Settings.Manager.LoadDocument | backend/pkg/settings/settings.go:629-645 | after the first load exactly the changed sections get a new revision; the first load moves none, so an earlier token survives it exactly when its section did not change |
| Settings.Manager.ReloadLocked | backend/pkg/settings/settings_file.go:80-92 | every namespace is resolved again; exactly those whose value changed are notified |
| Settings.LoadOne | backend/pkg/settings/settings.go:629-645 | one load keeps a registration resolved and its revision history exact |
| Toml.FindMeaning | backend/pkg/mcp/toml_subset.go:408-428 | the position found is the first separator met outside quotes |
| TomlParser.IndexUnquoted | backend/pkg/mcp/toml_subset.go:408-428 | the scan with a quote state finds it |
| TomlParser.SplitTOMLLine | backend/pkg/mcp/toml_subset.go:382-405 | cuts at exactly the commas outside quotes |
| TomlParser.ScanBasicString | backend/pkg/mcp/toml_subset.go:316-366 | escapes, the refused triple quote and the unterminated string |
| TomlParser.ParseTOMLKeyPath | backend/pkg/mcp/toml_subset.go:124-148 | segments separated by dots, quoted ones included |
| TomlParser.ParseTOMLArray | backend/pkg/mcp/toml_subset.go:243-274 | one-line arrays, trailing comma allowed, nesting refused |
| TomlParser.ParseTOMLInlineTable | backend/pkg/mcp/toml_subset.go:277-313 | one-line tables, repeated keys refused |
| TomlParser.ParseTOMLSubset | backend/pkg/mcp/toml_subset.go:25-82 | the line loop computes the parse, and reports the first line that cannot be read or conflicts |
| TomlRoundTrip.ScanEscaped | backend/pkg/mcp/toml_subset.go:316-366 | a string printed with escapes is read back whatever its characters |
| TomlRoundTrip.IntRead | backend/pkg/mcp/toml_subset.go:215-240 | every 64-bit integer is read back from its digits |
| TomlRoundTrip.ParseIntIff | backend/pkg/mcp/toml_subset.go:215-240 | a token is read as an integer exactly when it is the numeral of that 64-bit number, perhaps with zeros in front and a sign |
| Toml.HexRead | backend/pkg/mcp/toml_subset.go:337-356 | every number written in base sixteen, in either case, is read back |
| Toml.IsHexIff | backend/pkg/mcp/toml_subset.go:337-356 | a numeric escape is accepted on exactly the digits of base sixteen, in either case |
| Toml.IsSpaceIff | backend/pkg/mcp/toml_subset.go:32-34 | white space around a line, a key or a value is exactly the characters with that Unicode property |
| TomlRoundTrip.ValueRead | backend/pkg/mcp/toml_subset.go:175-313 | every printed value is read back, separators inside strings included; a table with a repeated key is refused |
| TomlRoundTrip.PathRead | backend/pkg/mcp/toml_subset.go:124-148 | every printed section path is read back, dots inside quoted segments included |
| TomlRoundTrip.ItemRead | backend/pkg/mcp/toml_subset.go:32-79 | every printed line says what it was printed from |
| TomlRoundTrip.TailRead | backend/pkg/mcp/toml_subset.go:431-437 | a section or a setting reads the same with white space or a remark behind it, whatever the remark says, and is refused with anything else behind it |
| TomlRoundTrip.EndOfLineIff | backend/pkg/mcp/toml_subset.go:431-437 | what may stand behind a value: white space, or a number sign with nothing but white space in front |
| TomlRoundTrip.ParsePrint | backend/pkg/mcp/toml_subset.go:25-82 | parsing a printed document gives exactly what its lines denote: the text layer loses and adds nothing |
| TomlRoundTrip.ParseForeign | backend/pkg/mcp/toml_subset.go:25-31 | the same of a text that starts with a byte order mark and ends its lines as other systems do |
| TomlTree.BuildMeaning | backend/pkg/mcp/toml_subset.go:25-102 | lines are accepted exactly when none conflicts with one before it (a header of the same identity, a value where a section is needed, anything under the key), refused at the first that does, and build exactly the values they state and the tables they open |
| TomlTree.ParseMeaning | backend/pkg/mcp/toml_subset.go:25-82 | the same of any text at all, in terms of what its lines say |
| TomlTree.ParsedMeaning | backend/pkg/mcp/toml_subset.go:25-82 | the same of a printed document, in terms of what it was printed from |
| TomlTree.ReadableIff | backend/pkg/mcp/toml_subset.go:277-313 | a printed setting is readable exactly when its inline table repeats no key |
| TomlLayout.LayoutRoundTrip | backend/pkg/mcp/toml_subset.go:25-102 | a table written as settings and sections, with any quotes, arrays and inline tables, is parsed back to the tree exactly when its sections are told apart, and refused otherwise |
| TomlWriter.PrintTreeParses | backend/pkg/mcp/toml_subset.go:25-102 | parsing the text of a tree of strings, 64-bit integers, booleans, scalar arrays and tables gives the tree back exactly when the paths of its tables differ in their pieces between NULs |
| TomlWriter.TreeRoundTrip | backend/pkg/mcp/toml_subset.go:25-102 | so every tree whose keys hold no NUL is parsed back unchanged |
| TomlWriter.ParsedTreeOk | backend/pkg/mcp/toml_subset.go:25-82 | and these are all trees there are: whatever text is parsed, its tree can be written |
| TomlDepartures.NumericEscapeIff | backend/pkg/mcp/toml_subset.go:330-366 | the inside of a basic string is read as its writer meant it exactly when it is refused or holds no numeric escape |
| TomlDepartures.NumericEscapeRepeats | backend/pkg/mcp/toml_subset.go:343-359 | a numeric escape of four digits or eight is read as its character followed by its own digits |
| TomlDepartures.HeaderIdsIff | backend/pkg/mcp/toml_subset.go:52-56 | two headers count as one section exactly when their segments fall into the same pieces at NUL |
| TomlDepartures.HeaderIdsDiffer | backend/pkg/mcp/toml_subset.go:52-56 | so without NUL different headers are told apart |
| TomlDepartures.HeaderIdsMeet | backend/pkg/mcp/toml_subset.go:52-56 | and with it two different headers count as one defined twice |
| RingBuffer.MaskIsRemainder | backend/pkg/storage/ringbuffer.go:25-37 | masking with a power of two less one is the remainder |
| RingBuffer.Ring.constructor | backend/pkg/storage/ringbuffer.go:25-37 | the smallest power of two that holds the requested capacity |
| RingBuffer.Ring.Push | backend/pkg/storage/ringbuffer.go:41-50 | the ring holds the last capacity events pushed |
| RingBuffer.Ring.GetSince | backend/pkg/storage/ringbuffer.go:53-71 | exactly the retained events from a seq on, in order |
| RingBuffer.Ring.LatestEvent | backend/pkg/storage/ringbuffer.go:74-80 | the last event pushed, if any |
| RingBuffer.SinceIsSuffix | backend/pkg/storage/ringbuffer.go:53-71 | when the first wanted event is still retained the reader gets the whole rest of the log |
| AcpPrompt.OwnEndIsOwn | backend/pkg/acp/server.go:806-846 | the end that counts follows the prompt's message with no other turn end between, and the reason given is the one that end stands for |
| AcpPrompt.ActKeeps | backend/pkg/acp/server.go:688-804 | one relayed event settles a prompt exactly when it ends the prompt's own turn |
| AcpPrompt.PromptSession.Begin | backend/pkg/acp/server.go:617-641 | one prompt in flight at a time |
| AcpPrompt.PromptSession.Act | backend/pkg/acp/server.go:693-824 | binds on the prompt's own message, settles a bound prompt on a turn end, touches no other prompt |
| AcpPrompt.PromptSession.Cancel | backend/pkg/acp/server.go:660-673 | settles as cancelled unless already settled; later callers lose |
| AcpPrompt.PromptSession.Collect | backend/pkg/acp/server.go:642-651 | without a cancel the reason is that of the prompt's own turn; the signal closed once |
| Sse.SseEventBuffer.Accept | backend/pkg/llm/sse.go:145-173 | dispatches exactly at a blank line that ends an event with data; strips one mark from the first line |
| Wrappers.JoinMeaning | backend/pkg/llm/sse.go:145-173 | the data values of an event are set apart by line ends |
| Sse.DispatchesCompleteEvents | backend/pkg/llm/sse.go:112-190 | exactly the complete events are dispatched, whole and in order; an unterminated tail never is |
| ImportClaude.ImportedFolds | backend/pkg/importcc/claude.go:297-326 | every imported log folds and nothing imported leaves the surface |
| ImportClaude.ImportedPairedIff | backend/pkg/compaction/toolpairing.go:41-65 | the surface of an imported log passes the pairing check exactly when it holds no tool result |
| ImportClaude.ConvertClaude | backend/pkg/importcc/claude.go:176-200 | every transcript converts to a contiguous, foldable log; the compaction can work on it exactly when no visible user line carried a tool result |
| ImportClaude.ClaudeConverter.TranslateUser | backend/pkg/importcc/claude.go:344-421 | results first, then one message joining the texts, which opens a turn |
| ImportClaude.ClaudeConverter.TranslateAssistant | backend/pkg/importcc/claude.go:499-591 | one message from text and reasoning, then the calls as log-only events |
| ImportClaude.ClaudeConverter.ConvertLine | backend/pkg/importcc/claude.go:208-256 | what one line becomes, and which title wins |
| ImportClaude.HasTextIff | backend/pkg/importcc/claude.go:235-241 | a title or a text counts exactly when it holds a character that is not white space |

## Left out

- Surface.SurfaceManager.ValidateNext: the pending candidate is compared by value, where the code compares pointers; rejection reasons are not told apart.
- Surface.SurfaceManager.Grow: growth of the log is a step of its owner, as the manager only holds a reference to it.
- Agents.Agent.EmitEvent: emits are taken as serialized (numbering, append and mirror are one step); other goroutines emit only log-only events, between the actor's own and at any point of a running compaction.
- Agents.Agent.constructor: the actor it builds has read its stored log; a read that fails is followed in `StoreNumbering` up to the stores' contents, not through a whole run of the actor.
- Agents.Agent.ActorLoop: a script that is exhausted stands for an actor that was stopped; retries with backoff, hooks, chunk emission dropped on a cancelled context and the ring and segment fan-out of an event are not part of it. A step end lost after tools does not end the turn, as in the code.
- Agents.Agent.ActorTurn: what the log gains is stated for runs without a lost append, and that the compaction is taken up for runs in which reads do not fail; a turn with a lost append keeps the machine, the numbering and the earlier log as stated, while its tale may stop anywhere.
- Compaction.CompactTransaction: the summarizer is a parameter that may fail or be cancelled. Other writers may append anything at any point; the theorems on whole commits take what they append between the transaction's own events as log-only, the one on the checkpoint takes anything.
- Downlink.DownlinkHub.FinishMuxReplay: connections are values named by ids; the asynchronous close of a slow connection is the separate step UnregisterMux. Lifecycle frames with their expiry and the read loop are left out. What a full subscriber channel drops before the hub sees it is never published here.
- Approval.ApprovalDesk.BroadcastHost: host queues are unbounded here; their bounds are those of `Downlink.EnqueueAllIff`.
- WorkerPool.SessionWorkerPool.Append: order is the order of queue appends; two concurrent submitters may append in another order than their ids.
- WorkerPool.SessionWorkerPool.CancelWhere: stated for a cancel nothing steps into; when others do, each of its sections keeps its own contract and touches no unmatched task.
- WorkerPool.SessionWorkerPool.RegisterHandle: deadlines are left out; a context is cancelled or not. SubmitSync's result is not modelled beyond the meaning of the done signal.
- Settings.DeepEqualIff: numbers are integers, so the NaN that is unequal to itself is left out.
- Settings.Manager.Write: aliasing of nested maps is left out; the code clones wherever a map crosses the manager.
- TomlParser.ParseTOMLSubset: text is a sequence of code points and an error keeps only its line number. ensureTOMLTable and the current section are modelled on values by path, so sharing of nested maps is left out.
- RingBuffer.Ring.GetSince: readers racing the writer, counter overflow and the memory order of the slots are left out.
- Sse.SseEventBuffer.Accept: the idle watchdog, the HTTP exchange and line splitting are left out.
- AcpPrompt.PromptSession.Act: a subscription that drops events is left out; message ids are fresh.
- ImportClaude.ConvertClaude: timestamps, ids, metadata and the counts by kind are left out.
- Liveness under fairness is left out; the worker pool proves only that no wake-up is lost.
- The request builder of the completions adapter, the rest of the gateway, plugins, MCP transports, credentials, the GUI and the CLI are left out as wiring.
