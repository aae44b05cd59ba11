# NextFlow: a verified model of its stateful cores

NextFlow is an agent platform: a FastAPI backend that streams model output to a browser client. This project models the
parts of it that keep state over time and proves what they promise, for every input and every run.

* **Streaming** (`TagSearch`, `ThinkFilter`, `ThinkMeaning`, `ThinkExact`, `ThinkLog`, `ThinkEvents`): the think-tag
  filter as a class over its buffer and mode, a segment log that accounts for every character, and chunking-invariance of
  the returned events with its exact condition.
* **Chat** (`ChatStream`, `ChatTheorems`, `ChatTurns`, `ChatFrames`, `MapStream`, `JsonText`, `JsonRoundTrip`,
  `JsonNonFinite`, `SseFraming`): the SSE generator, its event protocol on every run, what is stored, and the wire
  format with a client that reads it back.
* **Tools** (`Names`, `Registry`, `McpManager`, `McpRuns`, `McpOps`, `Skills`, `SkillRuns`, `SkillCaches`,
  `Validator`): the shared registry, the MCP and skill managers that partition it by name prefixes, MCP operations
  interleaved at their awaits, and package validation.
* **Memory** (`ShortTerm`, `ShortTermOrder`, `MemoryRuns`, `SummaryRuns`, `CompressionLaw`, `CompressionRaces`):
  the Redis window and any number of background compressors.
* **Tokens** (`Auth`, `ClientAuth`, `ClientCalls`): refresh-token rotation under interleaving, and the client's
  single-flight refresh against it, with what becomes of every request.
* **Pages** (`Cursor`, `Pagination`, `PageTies`): cursor encoding and page walks while rows change.
* **Agent** (`AgentGraph`): tool calls and their answers over any number of turns.

Each imperative part of the source is a class or a method proved against a specification function; the statements over
whole runs are lemmas about those functions. Interleavings are step systems: one step is the code between two awaits, a
step that is not enabled changes nothing, and outcomes of the outside world are arguments of the step.

`dafny verify dfyconfig.toml` checks the whole project with Dafny 4.11.

## Where the code differs from what it says

* `event_mapper.py:29-30` promises that both tags may be split across chunks. Only a partial opening tag is held;
  `ThinkEvents.ChunkingExact` gives the exact condition and `ThinkEvents.SplitCloseTagExample` a stream that violates
  it.
* `short_term.py:29-34` ships a window of 20 and a threshold of 15 with a documented background compression. With these
  values no compressor can ever act (`MemoryRuns.ShippedDefaults`, `MemoryRuns.CompressionExact`).
* `conversation_service.py:53-57` spells a row comparison. Python compares the two tuples itself and hands the query only
  the comparison of the creation times, so rows sharing the time of a page's last row are skipped
  (`PageTies.TiesAtBoundary`, `PageTies.WalkExact`, `PageTies.TiesExample`). Under distinct times the two readings agree.
* `short_term.py:185` deletes by rank. When compressors overlap this can delete messages that no summary covers
  (`CompressionLaw.ConservationExact`, `CompressionRaces.OverlapExact`, `CompressionLaw.TwoCompressorsLose`).
* `auth_service.py:107-115` reads a token before it deletes it, so two overlapping requests can both redeem it
  (`Auth.RaceExact`, `Auth.RaceReached`).
* `chat.py:252-254` writes non-finite numbers, which JSON readers reject: `SseFraming.ResponseRoundTrip` gives the exact
  condition and `SseFraming.NonFiniteExample` a run that loses a frame.
* `skill/manager.py:196-207` says that it stops all containers and unregisters all tools. A container that cannot be
  stopped (`sandbox.py:113-121` catches only that it is missing) ends the loop there; `Skills.DisableAllIsComplete` gives
  the exact condition and `Skills.StopFailureExample` a run that leaves a skill enabled.
* A stored summary replaces the one before (`short_term.py:176-182`), so with a window that lets compressors start, what
  earlier summaries retained is forgotten (`MemoryRuns.ContextCompleteExact`).
* `validator.py:48-69` accepts `tools` and `parameters` keys without a value. Enabling such a package raises, for a
  service with its container running and only part of its tools registered (`Validator.AcceptedEnables`,
  `Validator.AcceptedServiceTools`, `Validator.NullKeyExample`, `Validator.NullToolsExample`).
* `validator.py:165-187` documents a `script` package type. No accepted package has it (`Validator.AcceptanceExact`).
* `mcp/manager.py` and `skill/manager.py` separate owners by prefix but accept any name
  (`Names.UnsafeNamesExample`, `McpRuns.PartitionExact`, `SkillRuns.PartitionExact`).
* `api-client.ts:12` prevents concurrent refreshes, but the timer at lines 184-190 bypasses that
  (`ClientAuth.OverlapExact`, `ClientAuth.OverlapReached`).
* The chat protocol never sends a `text-end`, and several `finish` frames are possible (`ChatTurns.FinishPerTurn`);
  the grammar proved is the one the generator keeps.

## Model

| member | source | states |
|---|---|---|
| TagSearch.Find | backend/app/services/event_mapper.py:33-34 | leftmost case-insensitive occurrence of a tag, or proof that there is none |
| TagSearch.Search | backend/app/services/event_mapper.py:47-47 | the search the filter runs returns that leftmost occurrence |
| TagSearch.SkipTail | backend/app/services/event_mapper.py:33-34 | the run of whitespace and `>` after a tag is consumed greedily, and it is unique |
| TagSearch.PartialSuffixUnique | backend/app/services/event_mapper.py:102-108 | at most one length of a held prefix can match, so the order in which lengths are tried is irrelevant |
| TagSearch.FindPartialOpen | backend/app/services/event_mapper.py:102-108 | returns the start of the held suffix, and -1 exactly when no suffix is a prefix of the opening tag |
| TagSearch.HeldFindsOpen | backend/app/services/event_mapper.py:81-91 | holding that suffix back is enough: no opening tag that crosses into the next chunk starts before it |
| TagSearch.TagsDisjoint | backend/app/services/event_mapper.py:33-34 | an opening and a closing tag never overlap |
| ThinkFilter.ThinkTagFilter.Process | backend/app/services/event_mapper.py:40-98 | on every buffer and mode the events are those of the segment log: every visible text and unfinished thought as it is, every closed thought as its slice without the whitespace around it, and nothing for a thought of whitespace; the state left is settled, and the loop terminates on the buffer length |
| ThinkFilter.StripExact | backend/app/services/event_mapper.py:52-57 | stripping returns the one slice that leaves out only whitespace and neither begins nor ends with it |
| ThinkFilter.StripsToNothing | backend/app/services/event_mapper.py:52-52 | a thought is omitted exactly when it is all whitespace |
| ThinkFilter.EmittedExact | backend/app/services/event_mapper.py:52-87 | these events are the only ones a log allows: contents, order and omissions |
| ThinkFilter.ThinkTagFilter.Flush | backend/app/services/event_mapper.py:110-126 | from every settled state only visible text is flushed, so the thinking branch is unreachable |
| ThinkFilter.ScanSettles | backend/app/services/event_mapper.py:45-96 | after every call the buffer is empty, or the filter is outside think and the buffer is a proper non-empty prefix of the opening tag |
| ThinkMeaning.JoinHeld | backend/app/services/event_mapper.py:81-91 | a chunk boundary outside think never changes what is shown |
| ThinkMeaning.JoinEager | backend/app/services/event_mapper.py:59-69 | inside think a boundary changes nothing unless a closing tag straddles it |
| ThinkMeaning.JoinClean | backend/app/services/event_mapper.py:40-98 | erasing any clean boundary leaves visible text, thinking text and final state the same |
| ThinkExact.ThinkMore | backend/app/services/event_mapper.py:45-96 | reading a text from inside think never gives less thinking text than reading it from outside |
| ThinkExact.SplitClose | backend/app/services/event_mapper.py:47-69 | a closing tag cut by a boundary always changes the thinking text |
| ThinkExact.JoinUnclean | backend/app/services/event_mapper.py:40-98 | every unclean boundary strictly adds thinking text, or visible text to the same thinking text |
| ThinkExact.ChunkingDichotomy | backend/app/services/event_mapper.py:40-98 | from every settled state: clean chunkings mean what one call on the whole text means, unclean ones show strictly more |
| ThinkExact.OutcomeExact | backend/app/services/event_mapper.py:33-126 | the law on outcomes: same visible text after the final flush and same thinking text without whitespace if and only if every boundary is clean |
| ThinkEvents.DenseStrip | backend/app/services/event_mapper.py:59-62 | stripping a thought removes whitespace only |
| ThinkEvents.FilterStream | backend/app/services/event_mapper.py:36-126 | one `process` per chunk and a final `flush` return exactly the events the law is about |
| ThinkEvents.RunEventsMean | backend/app/services/event_mapper.py:40-126 | these events carry the whole outcome: chunks the visible text, thinking events the thinking text up to whitespace |
| ThinkEvents.ChunkingExact | backend/app/services/event_mapper.py:33-126 | chunking-invariance with its exact condition, on the returned events: the chunked run reads like one call on the whole stream if and only if every boundary is clean |
| ThinkEvents.SplitCloseTagExample | backend/app/services/event_mapper.py:29-30 | a concrete stream with a cut closing tag whose events do not read like those of the whole stream, although the class documentation says split tags are handled |
| ThinkEvents.CutCloseUnclean | backend/app/services/event_mapper.py:59-69 | every cut inside a closing tag is unclean |
| ThinkLog.LogOfStream | backend/app/services/event_mapper.py:40-98 | for every chunking: the log and at most five held characters are the stream in order, the modes alternate, only tags are dropped, and no visible region contains an opening tag |
| ThinkLog.OpenTagIsLeftmost | backend/app/services/event_mapper.py:71-91 | for every chunking: think mode is entered first at the leftmost opening tag of the whole stream; a stream without one comes out unchanged |
| ChatStream.SseGenerator.EmitFiltered | backend/app/api/v1/chat.py:93-129 | one filter event opens and closes reasoning and text parts and accumulates the reply as the generator does |
| ChatStream.SseGenerator.OnModelStream | backend/app/api/v1/chat.py:81-129 | tool calls win over content, empty content is skipped, and a list of blocks raises before any frame |
| ChatStream.SseGenerator.OnChainEnd | backend/app/api/v1/chat.py:153-203 | the end of the top-level chain flushes the filter, closes reasoning and sends finish |
| ChatStream.SseGenerator.OnCustom | backend/app/api/v1/chat.py:206-226 | a custom event opens reasoning and sends its delta; an unserialisable one raises after opening |
| ChatStream.SseGenerator.Run | backend/app/api/v1/chat.py:58-249 | the frames and the stored message of a whole response, for every event list and every way it can end |
| ChatTheorems.EmitAllOpen | backend/app/api/v1/chat.py:93-129 | the protocol invariant holds after any events of the filter, and the reply grows by exactly their chunk text |
| ChatTheorems.FinishKeeps | backend/app/api/v1/chat.py:153-203 | the end of a turn keeps the invariant, empties the buffer and adds exactly the held suffix to the reply |
| ChatTheorems.HandleKeeps | backend/app/api/v1/chat.py:72-226 | every event keeps the protocol invariant and the account of the text fed to the filter, also when it raises |
| ChatTheorems.EveryRun | backend/app/api/v1/chat.py:63-249 | every run, failed, cancelled or disconnected: start and start-step first, exactly one terminator, reasoning properly bracketed and closed at every text-delta and finish, one text-start before all deltas; the stored message is the concatenation of the text deltas and is the visible text of a log of what was streamed |
| ChatTheorems.NothingLost | backend/app/api/v1/chat.py:153-203 | no streamed character is missing from the log when a top-level chain end follows the last content |
| ChatTheorems.PlainReply | backend/app/api/v1/chat.py:239-246 | a reply without an opening tag is stored as streamed, up to the held suffix, on every run |
| ChatFrames.FramesExact | backend/app/api/v1/chat.py:63-249 | every frame of every run: start and start-step, then exactly what is due behind its brackets, then the end; a failed run carries the message of the first event that raises |
| ChatFrames.FramesAccount | backend/app/api/v1/chat.py:81-226 | every run: without brackets the frames interleave, in event order, what the filter says of each turn and what tools, custom events and chain ends send; every reasoning delta is a non-empty thinking event or the content of a custom event, and nothing is missing |
| ChatFrames.SpokenByTurns | backend/app/api/v1/chat.py:93-203 | the first of these accounts is exactly the events of one `process` per chunk and a `flush` per closed turn |
| ChatFrames.DirectsExact | backend/app/api/v1/chat.py:81-226 | the second is computed from the event list alone, up to the event that raises: tool inputs, tool outputs, custom contents and finish frames in order |
| ChatTurns.ReplyByTurns | backend/app/api/v1/chat.py:72-246 | every run, with any number of turns and every ending: the stored message is the concatenation, turn by turn, of what the filter shows, all of a closed turn and of an open one what it has let out; with clean boundaries it does not depend on how the text was cut |
| ChatTurns.FinishPerTurn | backend/app/api/v1/chat.py:153-203 | every response has exactly one `finish` with reason `stop` per top-level chain end it reached, so none or several are possible |
| ChatTurns.ReplyIsShown | backend/app/api/v1/chat.py:93-203 | end to end: a completed turn stores what the filter shows of its chunks, and with clean boundaries what it shows of the whole text |
| ChatTurns.InterruptedReply | backend/app/api/v1/chat.py:93-129 | a run that fails, is cancelled or loses its client before the turn ends has stored exactly what the filter let out of its chunks |
| MapStream.MapStreamEvents | backend/app/services/event_mapper.py:129-218 | the mapped events of a whole run, including the error event and the final flush |
| MapStream.HeardExact | backend/app/services/event_mapper.py:129-218 | however the stream ends, the mapped filter events are exactly those of one `process` per chunk and a final `flush` |
| MapStream.MapStreamIsLossless | backend/app/services/event_mapper.py:210-218 | however the stream ends, the chunks carry everything the filter shows, the held suffix included |
| MapStream.MappingsAgree | backend/app/services/event_mapper.py:129-209 | when no event raises, the chat response and this mapping tell the client the same besides the text, in the same order: tool requests, inputs, outputs, custom contents and the end of each turn |
| JsonRoundTrip.DumpsOneLine | backend/app/api/v1/chat.py:252-254 | serialised values contain no control character, hence no line break |
| JsonRoundTrip.DumpsRoundTrip | backend/app/api/v1/chat.py:252-254 | reading a serialised value gives the value back |
| SseFraming.WireRead | backend/app/api/v1/chat.py:236-254 | reading the stream by the event-stream rules gives back the payload of every line, in order |
| JsonNonFinite.ReadableExact | backend/app/api/v1/chat.py:252-254 | a serialised value reads back as itself when all its numbers are finite, and is rejected otherwise |
| SseFraming.WireRoundTrip | backend/app/api/v1/chat.py:236-254 | a client recovers the readable objects in order and then the terminator, which no object can spell; that is everything sent if and only if all numbers are finite |
| SseFraming.ResponseRoundTrip | backend/app/api/v1/chat.py:63-254 | on every run a client that reads a complete response gets every frame the generator yielded, if and only if none carries a non-finite number, and all others otherwise |
| SseFraming.NonFiniteExample | backend/app/api/v1/chat.py:147-150 | a run whose tool output is not a number: the client receives the start and the end of the response and no output |
| SseFraming.WireDetermines | backend/app/api/v1/chat.py:64-254 | the text of a complete response with finite numbers determines its frames |
| SseFraming.FrameRead | backend/app/api/v1/chat.py:64-231 | looking fields up by key gives every frame back from its object, and the parts of a message carry its ids |
| SseFraming.ClientSees | backend/app/api/v1/chat.py:63-254 | on every run without non-finite numbers the client's own view is every frame the generator yielded, in order |
| Registry.ToolRegistry.Register | backend/app/services/tool_registry/registry.py:35-63 | stores when all arguments are given, otherwise returns a decorator or raises, and then changes nothing |
| Registry.ToolRegistry.ListTools | backend/app/services/tool_registry/registry.py:90-103 | every registered name once |
| Registry.ToolRegistry.Unregister | backend/app/services/tool_registry/registry.py:109-119 | removes exactly the names with the prefix and returns how many |
| Names.PrefixFreeExact | backend/app/services/mcp/manager.py:113-114 | the prefix of one owner matches no tool of another exactly when neither prefix extends the other |
| Names.SafeNamesArePrefixFree | backend/app/services/mcp/manager.py:131-142 | names without a separator and without a final underscore are prefix-free |
| Names.UnsafeNamesExample | backend/app/services/mcp/manager.py:131-142 | two names the repository accepts whose tools collide |
| Names.ToolNamesInjective | backend/app/services/mcp/manager.py:142-142 | with prefix-free owners a tool name determines its owner and tool |
| McpManager.MCPManager.OnConnected | backend/app/services/mcp/manager.py:93-133 | the client is stored and its prefix cleared in one segment |
| McpManager.MCPManager.OnSync | backend/app/services/mcp/manager.py:131-133 | clearing a prefix changes nothing else |
| McpManager.MCPManager.OnListed | backend/app/services/mcp/manager.py:135-154 | a successful discovery registers every reported tool, a failed one nothing |
| McpManager.MCPManager.OnDisconnect | backend/app/services/mcp/manager.py:106-117 | client and tools are removed in one segment; an unknown server changes nothing |
| McpManager.MCPManager.ReconnectSleeps | backend/app/services/mcp/manager.py:222-248 | the sleeps follow the backoff sequence, advanced by failures and not while the client is missing, and stop at the first success |
| McpManager.BackoffClosedForm | backend/app/services/mcp/manager.py:223-248 | attempt k sleeps min(2^k, 60) |
| McpManager.TotalWaitClosedForm | backend/app/services/mcp/manager.py:223-248 | the first n attempts wait 2^n - 1 up to n = 6 and 63 + 60(n - 6) afterwards |
| McpRuns.ClearKeeps | backend/app/services/mcp/manager.py:106-133 | clearing a server's prefix forgets exactly what that server reported |
| McpRuns.ListKeeps | backend/app/services/mcp/manager.py:135-154 | registering a report adds exactly that report |
| McpRuns.RunKeeps | backend/app/services/mcp/manager.py:52-154 | the invariant of every interleaving of operations on different servers |
| McpRuns.Ownership | backend/app/services/mcp/manager.py:78-154 | every `mcp__` entry was last reported by exactly one server and is routed to the client stored for it, and nothing reported is missing, in every interleaving |
| McpRuns.StepStaysInPrefix | backend/app/services/mcp/manager.py:106-154 | in any state and with any names no operation adds, removes or changes an entry outside its server's prefix |
| McpRuns.CollisionBreaks | backend/app/services/mcp/manager.py:82-154 | a run that removes another server's tools, for every pair of colliding names |
| McpRuns.PartitionExact | backend/app/services/mcp/manager.py:78-154 | the registry is the disjoint union of what the servers reported on every run if and only if the names are pairwise prefix-free |
| McpOps.EndsExact | backend/app/services/mcp/manager.py:78-117 | an operation ends when its connection fails or after its last await, and in no other way |
| McpOps.HandlerPersists | backend/app/services/mcp/manager.py:215-243 | the handler of a failed server goes on until a reconnection succeeds, and then discovers the tools of the same client again with a clean slate |
| McpOps.BackoffExact | backend/app/services/mcp/manager.py:222-248 | on every interleaving each sleep of a handler is min(2^f, 60) after f failed attempts |
| McpOps.DiscoveryExact | backend/app/services/mcp/manager.py:126-154 | on every run over prefix-free servers a finished discovery leaves exactly the reported tools of the server, routed to the client that was asked, and none if it failed |
| Skills.SkillManager.EnableOne | backend/app/services/skill/manager.py:89-168 | containers, caches and tools after enabling, and whether it raises, for every outcome of download, manifest, container and registration |
| Skills.SkillManager.DisableSkill | backend/app/services/skill/manager.py:174-194 | tools and container of exactly that name are forgotten; its caches too, unless stopping a stored container raises |
| Skills.SkillManager.DisableAll | backend/app/services/skill/manager.py:196-207 | the loop ends at the first stop that raises: tools and containers of the targets up to it are gone, the caches of those before it are cleared, and everything else is untouched |
| Skills.SkillManager.EnabledSummaries | backend/app/services/skill/manager.py:349-376 | one summary per distinct skill part of the registered tools, with its description |
| Skills.DisableAllIsComplete | backend/app/services/skill/manager.py:196-207 | after every run of enable and disable, also failed ones, for all names: no container and no `skill__` entry remains if no stop raises, and otherwise exactly if nothing was left after the stop that raised; other entries are untouched in any case |
| Skills.DisableAllExact | backend/app/services/skill/manager.py:196-207 | in any state, whatever stops raise: the namespace is emptied exactly when every name in it has two separators and nothing was left after the stop that raised |
| Skills.StopFailureExample | backend/app/services/skill/manager.py:183-206 | two services whose containers cannot be stopped: after `disable_all` the one not reached keeps its container and its tool |
| Skills.EnabledTools | backend/app/services/skill/manager.py:142-161 | the entries under the skill's prefix are exactly its tools before the first without a schema, routed to its container |
| Skills.SummaryNamesSkill | backend/app/services/skill/manager.py:357-360 | a summary names the skill of a tool exactly when the skill's name is separator-safe |
| Skills.EnableWipesOthers | backend/app/services/skill/manager.py:143-144 | enabling a skill removes the tools of another one that its prefix reaches |
| SkillCaches.RaisesExact | backend/app/services/skill/manager.py:89-168 | enabling raises exactly if something around it fails, the `tools` key has no value, or a tool of a service has no schema |
| SkillCaches.EnableExact | backend/app/services/skill/manager.py:89-168 | what each outcome changes: nothing before the package is read, then the caches of this skill, then the container of a service that started |
| SkillCaches.EnabledElsewhere | backend/app/services/skill/manager.py:142-161 | entries outside the skill's prefix stay as they are, and a skill that is no service has none under it |
| SkillCaches.CachesExact | backend/app/services/skill/manager.py:89-194 | after every run of enable and disable, also failed ones: container, body and description of each skill are those it was given last, computed from the operations alone |
| SkillRuns.RunSound | backend/app/services/skill/manager.py:142-194 | over every run of enabling and disabling, also with failing enables and stops, the skill namespace is what the enabled skills last registered, each tool owned once and routed to its owner's container |
| SkillRuns.PartitionExact | backend/app/services/skill/manager.py:142-182 | that holds on every run if and only if the skill names are pairwise prefix-free |
| Validator.AcceptanceExact | backend/app/services/skill/validator.py:96-187 | a package is accepted exactly when its manifest is there and complete, every path is relative without a `..` between slashes, and it has `script/<name>.py` for every declared tool and no other; its kind is service with tools and knowledge without, never script |
| Validator.PathExact | backend/app/services/skill/validator.py:106-111 | the check on a name holds exactly if it does not begin with a slash and no `..` in it is bounded by slashes or ends |
| Validator.StaysInside | backend/app/services/skill/validator.py:106-111 | resolving an accepted name component by component from the extraction directory never leaves it |
| Validator.OpeningExact | backend/app/services/skill/validator.py:91-115 | which problem is reported before the manifest is read: bad archive, no manifest, the first unsafe name, or a manifest that cannot be parsed |
| Validator.ManifestExact | backend/app/services/skill/validator.py:41-69 | which problem of a manifest is reported: the first empty field in order, tools that are no list, or the first tool entry that is wrong |
| Validator.MatchExact | backend/app/services/skill/validator.py:123-156 | which mismatch is reported: the set of all tools without a script before the set of all scripts without a tool |
| Validator.AcceptedEnables | backend/app/services/skill/validator.py:48-69 | with nothing failing around it, enabling an accepted package raises if and only if its `tools` or some `parameters` key is present but null |
| Validator.AcceptedServiceTools | backend/app/services/skill/validator.py:123-156 | enabling an accepted service registers exactly one tool per script of its archive if and only if every declared name stands before the first null `parameters`; without a null always |
| Validator.NullToolsExample | backend/app/services/skill/validator.py:48-69 | an accepted package with a null `tools` key that raises when enabled, with its caches filled |
| Validator.NullKeyExample | backend/app/services/skill/validator.py:48-69 | accepted packages with a null `parameters` key that raise when enabled, leaving a container without its tool |
| ShortTerm.ThreadMemory.AddTransaction | backend/app/services/memory/short_term.py:69-73 | one transaction adds a message in score order and trims to the window |
| ShortTermOrder.TextBeforeExact | backend/app/services/memory/short_term.py:69-70 | members with equal scores are ordered by the first character that differs, a prefix first |
| ShortTermOrder.AddedExact | backend/app/services/memory/short_term.py:69-73 | one addition at any timestamp: the set stays ordered without duplicates, and a member is left out only when the window is full of later ones |
| ShortTermOrder.RunOrdered | backend/app/services/memory/short_term.py:69-73 | on every interleaving the set is ordered, without duplicates and no larger than the window |
| ShortTerm.PlanExact | backend/app/services/memory/short_term.py:127-141 | a message is summarised if and only if at least threshold plus five newer ones are stored, so the threshold test itself never decides |
| MemoryRuns.SmallWindowRun | backend/app/services/memory/short_term.py:69-78 | with a window no larger than the kept count no compressor ever acts, on every interleaving |
| MemoryRuns.WindowIsTail | backend/app/services/memory/short_term.py:69-73 | with increasing timestamps the set is the last messages added since it last expired, cut to the window |
| MemoryRuns.ShippedDefaults | backend/app/services/memory/short_term.py:29-34 | with the shipped 20 and 15 the set is the last 20 messages and nothing is ever summarised |
| MemoryRuns.CompressionExact | backend/app/services/memory/short_term.py:128-139 | compressors can act on some run if and only if the window exceeds the threshold plus five |
| MemoryRuns.DelayedDeleteExact | backend/app/services/memory/short_term.py:128-185 | a delayed delete removes exactly what was summarised, and summary and rest are the history, if and only if the additions meanwhile caused no trim |
| CompressionLaw.ConservationExact | backend/app/services/memory/short_term.py:127-185 | with any number of compressors, while nothing is trimmed or expires: summarised batches followed by stored messages are the messages added if and only if every delete by rank found its own batch in front |
| CompressionLaw.TwoCompressorsLose | backend/app/services/memory/short_term.py:115-185 | a run in every configuration that lets compressors start where two of them have read the same set and a message neither summarised is lost |
| CompressionRaces.OverlapExact | backend/app/services/memory/short_term.py:115-185 | after every calm run, a step that trims and expires nothing is followed by a continuation without further overlaps that loses a message if and only if it is the read of a second compressor while another is past its own |
| CompressionLaw.LossExact | backend/app/services/memory/short_term.py:128-139 | no such run loses a message if and only if the window does not exceed the threshold plus five |
| MemoryRuns.CompressionConserves | backend/app/services/memory/short_term.py:115-192 | over every calm run the summarised batches followed by the stored messages are the messages added, in order |
| MemoryRuns.ContextExact | backend/app/services/memory/short_term.py:80-113 | over every calm run the latest summary and the stored messages miss exactly the messages whose summaries were replaced |
| MemoryRuns.ContextCompleteExact | backend/app/services/memory/short_term.py:127-185 | the context misses nothing on every calm run if and only if no compressor can start; otherwise a second summary forgets the first |
| SummaryRuns.BatchExact | backend/app/services/memory/short_term.py:75-141 | every run: a batch being summarised, stored or deleted is what its compressor read in front of the set, all but the newest threshold plus five, after a count over the threshold |
| SummaryRuns.SummaryExact | backend/app/services/memory/short_term.py:170-182 | every run: the stored summary is the text the model gave to the compressor that stored last, and there is none exactly if nothing was stored since the beginning or the expiry |
| Auth.AuthService.Login | backend/app/services/auth_service.py:70-81 | a login stores one fresh token |
| Auth.AuthService.Refresh | backend/app/services/auth_service.py:107-132 | uninterrupted, a live token is exchanged for a fresh one and any other is refused; it agrees with the four steps run alone |
| Auth.AuthService.Logout | backend/app/services/auth_service.py:153-154 | a logout removes exactly the given key |
| Auth.RunKeeps | backend/app/services/auth_service.py:107-132 | in every interleaving no deleted key is live, live keys were handed out, and keys about to be stored are new |
| Auth.DeadTokenIsRefused | backend/app/services/auth_service.py:107-132 | once a refresh or logout has deleted a key, every refresh whose GET comes later is refused, for the rest of every run |
| Auth.RedeemedOnce | backend/app/services/auth_service.py:107-132 | on every run without a GET of a live token that another refresh has read already, every token is redeemed at most once |
| Auth.RaceExact | backend/app/services/auth_service.py:107-132 | the condition is exact: after every such run, the next step breaks it if and only if a continuation without further races redeems a token twice |
| Auth.RaceReached | backend/app/services/auth_service.py:107-115 | two requests with the token of one login reach such a step |
| ClientAuth.ApiClient.EnsureRefreshed | frontend/src/lib/api-client.ts:68-76 | joins the refresh in flight or starts one with the stored token |
| ClientAuth.ApiClient.OnUnauthorized | frontend/src/lib/api-client.ts:118-127 | a first 401 waits for the shared refresh, a second one gives up |
| ClientAuth.ApiClient.OnPromiseReply | frontend/src/lib/api-client.ts:50-75 | on a new token it is stored, and every waiting request becomes a retry and is counted once more while the others stay; on any other answer the token is cleared, exactly the waiting ones end, and nothing is counted |
| ClientCalls.CallExact | frontend/src/lib/api-client.ts:44-146 | every permitted run: a request ends exactly by its response, a 401 on its retry, a 401 with no token, or a shared refresh that fails; it waits exactly after a first 401 with a token to refresh, and is sent a second time exactly when the shared refresh succeeds |
| ClientCalls.SentExact | frontend/src/lib/api-client.ts:94-115 | a request is new exactly when it is sent, and is sent once |
| ClientCalls.StoredExact | frontend/src/lib/api-client.ts:44-66 | the stored token is that of the last successful sign-in or refresh, and none after signing out or a refusal |
| ClientCalls.RetryReached | frontend/src/lib/api-client.ts:118-122 | a run in which a request meets a 401, the refresh succeeds, and the request is sent again with the successor token stored and live |
| ClientAuth.PlaySound | frontend/src/lib/api-client.ts:44-127 | the invariant of client and server together on every permitted run |
| ClientAuth.ComposedRefresh | frontend/src/lib/api-client.ts:44-127 | on every permitted run the stored token is live whenever no refresh is in flight, no refresh is answered as revoked, requests wait only for a refresh in flight, and each request is fetched at most twice |
| ClientAuth.OverlapExact | frontend/src/lib/api-client.ts:44-76 | after every permitted history, a 401 or a timer can cost the user the session, through a refresh answered as revoked on a permitted continuation, if and only if it starts a refresh while another one is in flight |
| ClientAuth.OverlapReached | frontend/src/lib/api-client.ts:181-190 | one request with a 401 just before the timer fires is such a history |
| ClientAuth.LostWhileLive | frontend/src/lib/api-client.ts:181-190 | from there the user can be signed out although the other refresh has just produced a live token |
| Cursor.Base64RoundTrip | backend/app/schemas/envelope.py:27-31 | decoding undoes URL-safe base64 for every byte string |
| Cursor.AlphabetExact | backend/app/schemas/envelope.py:27-27 | the digits are the URL-safe alphabet in order, and the decoder also takes the two characters of the standard one |
| Cursor.EncodeExact | backend/app/schemas/envelope.py:27-27 | three bytes read as a number of 24 bits become its four digits, with padding and zero bits in a last group |
| Cursor.SkipsForeign | backend/app/schemas/envelope.py:31-31 | characters outside the alphabet make no difference to the decoder, wherever they stand |
| Cursor.CursorRoundTrip | backend/app/schemas/envelope.py:25-33 | a cursor decodes to the timestamp and id it was made from, even when the id contains the separator |
| Cursor.DecodeExact | backend/app/schemas/envelope.py:30-33 | decoding answers with a timestamp and an id exactly when the cursor is base64 of a text that has them around its first separator, and raises in all other cases |
| Pagination.PageIs | backend/app/services/conversation_service.py:36-63 | a page takes the first matching rows in order, leaves lower ones, and says whether any are left |
| Pagination.ListForUser | backend/app/services/conversation_service.py:36-63 | the query with one extra row and its slicing return that page |
| Pagination.ReadingsAgree | backend/app/services/conversation_service.py:53-57 | during a walk both readings of the tuple comparison select the same rows |
| Pagination.WalkKeeps | backend/app/services/conversation_service.py:15-90 | the invariant of a page walk interleaved with creation, archiving and deletion |
| Pagination.WalkIsComplete | backend/app/services/conversation_service.py:44-63 | a finished walk returns each surviving initial row exactly once, in strictly descending order, and only rows of the user that were not archived |
| Pagination.ReturnsKnown | backend/app/services/conversation_service.py:36-63 | on any walk every returned row was there at the start or was created on the way, and belongs to the user |
| Pagination.WalkProgress | backend/app/services/conversation_service.py:59-63 | every further page strictly decreases the rows below the cursor, and nothing else increases them |
| PageTies.TiesAtBoundary | backend/app/services/conversation_service.py:53-57 | with equal timestamps a page loses exactly the rows that share the time of its last row, and none if and only if the next row is strictly older |
| PageTies.TiesExample | backend/app/services/conversation_service.py:53-57 | two conversations of one moment and a page size of one: the second is on no page, while the row comparison would find it |
| PageTies.WalkExact | backend/app/services/conversation_service.py:44-63 | a finished walk over rows that do not change returns all the user's rows in order if and only if no two rows of one creation time stand on either side of a page boundary; otherwise a row is on no page |
| PageTies.WalkEnds | backend/app/services/conversation_service.py:59-63 | ties or not, the walk ends, after at most one page more than there are rows |
| AgentGraph.PairedExact | backend/app/services/agent_engine/nodes/execute.py:51-80 | the pairing position by position: every call is answered in place and every tool message is such an answer |
| AgentGraph.SanitizeMessages | backend/app/services/agent_engine/nodes/plan.py:26-44 | without system messages the list is returned as it is; otherwise one message with the merged text of all of them, in order, and then all others in order |
| AgentGraph.SelectedExact | backend/app/services/agent_engine/nodes/plan.py:33-39 | both parts keep their messages and their order, and every message is in exactly one of them |
| AgentGraph.MergedConcat | backend/app/services/agent_engine/nodes/plan.py:43-43 | wherever the merged text is cut into messages, one line break stands between the parts |
| AgentGraph.SanitizedShape | backend/app/services/agent_engine/nodes/plan.py:33-44 | the non-system messages are unchanged and at most one system message remains, at the front |
| AgentGraph.SanitizeIdempotent | backend/app/services/agent_engine/nodes/respond.py:32-49 | sanitizing twice changes nothing |
| AgentGraph.SanitizedPaired | backend/app/services/agent_engine/nodes/plan.py:26-44 | sanitizing keeps every tool call next to its answers |
| AgentGraph.PlannedExact | backend/app/services/agent_engine/nodes/plan.py:56-98 | the plan is the response of the first invocation that succeeds, of at most two, the second only after tools were bound; when none succeeds it asks for no tools and names the last error |
| AgentGraph.ExecuteNode | backend/app/services/agent_engine/nodes/execute.py:38-80 | one answer per tool call, in order, with that call's id and outcome: its result, or the message that names it as missing or failed with its error, or that there is no registry; none for a message without calls |
| AgentGraph.TurnExtends | backend/app/services/agent_engine/nodes/respond.py:63-107 | a turn leaves the history alone, runs tools exactly when the plan asks for them, and always ends with a message of the assistant, whose calls are those of the response |
| AgentGraph.TurnExact | backend/app/services/agent_engine/graph.py:49-65 | a turn position by position: history, user, context, plan, one answer per call with that call's own outcome, and the response or the apology |
| AgentGraph.ConversationExact | backend/app/services/agent_engine/graph.py:49-65 | in any conversation every turn stays as it was: it follows the earlier ones and later ones follow it |
| AgentGraph.RunTurn | backend/app/services/agent_engine/graph.py:49-65 | the nodes in the order of the graph produce the messages of a turn |
| AgentGraph.FreshAppends | backend/app/services/agent_engine/state.py:26-26 | with fresh ids the reducer appends |
| AgentGraph.ReducerExact | backend/app/services/agent_engine/state.py:26-26 | whatever ids are added: no id occurs twice, old entries keep their places with the last message added under their id, and the others are new ids with their last message |
| AgentGraph.ReducerComplete | backend/app/services/agent_engine/state.py:26-26 | every id added is there afterwards |
| AgentGraph.ReducerIsTurn | backend/app/services/agent_engine/graph.py:55-65 | a turn's state is the messages of its nodes in order |
| AgentGraph.TurnPaired | backend/app/services/agent_engine/graph.py:19-65 | a turn keeps the pairing exactly when its response asks for no tools |
| AgentGraph.PairingExact | backend/app/services/agent_engine/graph.py:19-65 | over any number of turns every message with tool calls is followed immediately by exactly one answer per call, and no other tool message occurs, if and only if no response of the respond node asks for tools |

## Left out

* Unicode case folding: the filter's tags are matched with ASCII folding; characters such as the Kelvin sign, for which
  `re.IGNORECASE` and `str.lower` go beyond ASCII, are treated as different letters.
* Exceptions thrown into the chat generator at a `yield` (closing it from outside): exceptions arise at awaits and in
  expressions that can raise.
* Frame ids and event names of the frameworks, logging, and the database write of the stored message beyond its value.
* The syntax of JSON numbers beyond the characters of a token, and surrogate halves.
* `enable_all`, `disconnect_all` and the health-check loops: sequences of the modelled operations.
* Two operations overlapping on the same MCP server, and steps interleaving inside `disable_all`: one operation per
  server, and an uninterrupted `disable_all`, are hypotheses.
* The order of registry entries, and so the order of tool lists and summaries.
* Manifest fields and tool-call ids that are neither text nor null, and null ids inside the agent graph.
* Redis expiry times: a key may expire at any step instead.
* The text of a summary, which comes from the language model, and stored members that are not valid JSON.
* Password checking, token signing and the clock: tokens are valid and their ids fresh; access tokens are not modelled.
* Register, and the remaining fields of users, rows and messages.
* Several tabs or devices sharing one stored token, lost replies, expiry of the client's own token, and signing in or out
  while a refresh is in flight: hypotheses of `ClientAuth.ComposedRefresh`.
* Cursors that decode to bytes outside ASCII are treated as malformed.
* A page limit below 1, which the routes do not refuse.
* The semantic memory store and what it returns; cancellation between plan and execute.
* The WebSocket connection manager, the React components, and the CRUD routes.
