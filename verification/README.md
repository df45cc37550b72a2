# Verified model of the assistant's stateful cores

These modules model the parts of the repository that keep state from one step to the next, and
prove what holds over whole runs of them.

- **Streams.** `ThinkParser`, `Utf8Stream` and `StopWords` cut a text that arrives in arbitrary
  chunks. Two of them share the theory of held suffixes in `Texts`.
- **Decoding.** `LlamaRunner` keeps a key-value cache with a position; `LlamaWorker` runs Generate
  and Forward jobs over it and composes the two buffers. The C library is a function from cells of
  the cache to logits.
- **Protocols.** `SessionLock`, `ToolManager` and `McpClient` are state machines: a step is one
  critical section or one channel operation, and every theorem is about all interleavings.
  `JsonRpcIds` has the keys that correlate responses (section 5 of the JSON-RPC 2.0 specification).
- **Sessions.** `SessionHistory` numbers and compresses messages; `SessionRequests` puts it under the
  lock.
- **Brain loops.** `PlanExecute` parses a plan and dispatches its steps, `PlanRelay` carries plans and
  results between the sides, `Cerebellum` executes them on a budget, `BrainLoop` puts the three
  together, `RateLimiting` is the token bucket.
- **Buffers and choice.** `RingBuffers`, `Distillation`, `Pipeline` and `Provenance` are the context
  memory, its compression and what becomes of each node; `ModelRegistry` chooses a model by tags.

Objects that the source updates in place are classes; their methods are tied to specification
functions, and the lemmas are about these. `dafny verify dfyconfig.toml` checks everything.

Where the code does less than its comments say, the model follows the code and states exactly when
the claim holds:

- With several stop words the detector cuts at the first *listed* one present
  (ark/infra/llamacpp/chat.go:111), so chunk boundaries do matter: `StopWords.ChunkingIrrelevantIff`.
- At end of sequence the text held for a stop word is dropped (ark/infra/llamacpp/worker.go:185, 227):
  `LlamaWorker.ContentAtEndOfSequence`. After a stop word incomplete bytes are still appended
  (ark/infra/llamacpp/worker.go:214): `LlamaWorker.ContentAtStopIff`.
- Sequence numbers are 32 bits wide: `SessionHistory.AppendKeepsSeqOkIff`.
- `Manager.Close` does not wait for calls (internal/bionic/tool/tools.go:306):
  `ToolManager.CloseIsSafeIff`; a load in progress outlives it. A failing close ends an idle sweep:
  `ToolManager.AllClosedIff`. Tools of one MCP server share a client, which unloading an idle one closes
  under the calls of the others (internal/bionic/tool/mcp_loader.go:220): `ToolManager.UnloadIsClientSafeIff`.
  A name with white space around it replaces a registered tool (internal/bionic/tool/tools.go:198, 204):
  `ToolManager.RegisterOrphansIff`.
- A server that answers an id twice can block the MCP client for good: `McpClient.BlockedForeverIff`.
  Ids above 2^53 can miss their echo: `JsonRpcIds.EchoFindsIff`.
- Printing and parsing a plan is the identity on clean plans only: `PlanRelay.RoundTripIff`; short
  goals lose their session: `PlanRelay.BaseIsGoalIff`, `BrainLoop.ShortGoalStalls`; delegations of
  goals with a hyphen too: `Cerebellum.CorrectionsFindGoalIff`.
- A tool result gets the note that it was truncated even if only white space or a line break is gone
  (internal/bionic/context/pipeline.go:194): `Distillation.TruncatedMeans`.
- The compression pipeline keeps the boundary of its snapshot while the list gets shorter:
  `Pipeline.ProtectedSuffixIff`. Distilling a turn with a masked or degraded node loses the last mention
  of that node's id: `Provenance.EveryNodeIsNamedOnce`. The pipeline also drops what it has computed
  (internal/bionic/context/pipeline.go:82-112).

## Model

| member | source | states |
|---|---|---|
| ThinkParser.ChunkingDoesNotMatter | internal/cognitor/proxy/think_parser.go:31-202 | for every list of chunks, the flushed stream, up to where its runs are cut, is the sequence of markers and maximal runs of one pass over the concatenation, and ends in the same mode |
| ThinkParser.StreamLosesNothing | internal/cognitor/proxy/think_parser.go:31-202 | putting the tags back at the mode switches of the delivered runs gives exactly the input |
| ThinkParser.RenderParse | internal/cognitor/proxy/think_parser.go:46-153 | printing a parsed text, with its final mode, gives the text back |
| ThinkParser.MaximalIsCanonical | internal/cognitor/proxy/think_parser.go:46-153 | a sequence of maximal runs is determined by its markers and characters, so that the comparison above hides no reordering |
| ThinkParser.ParseIsMaximal | internal/cognitor/proxy/think_parser.go:46-153 | one pass over a text never delivers two neighbouring pieces of the same mode |
| ThinkParser.DrainThenParse | internal/cognitor/proxy/think_parser.go:46-153 | what one Feed delivers, followed by a parse of what it holds back and of any further text, is a parse of everything |
| ThinkParser.StreamInvariant | internal/cognitor/proxy/think_parser.go:31-155 | after any chunks the delivered events and the held text together still mean the whole input, in the right mode |
| ThinkParser.StreamRestHasNoTag | internal/cognitor/proxy/think_parser.go:51-68 | the held text never contains the tag that is awaited |
| ThinkParser.SafeFlushEnd | internal/cognitor/proxy/think_parser.go:192-202 | everything may be flushed but the longest suffix that is a prefix of the tag |
| ThinkParser.ThinkTagParser.Feed | internal/cognitor/proxy/think_parser.go:31-155 | one chunk: the delivered events, mode and held text when the callback succeeds; the exact prefix of events, the mode and the dropped text when it fails at any event |
| ThinkParser.ThinkTagParser.Flush | internal/cognitor/proxy/think_parser.go:157-190 | delivers the held text in the current mode and empties the buffer |
| ThinkParser.ParseStream | internal/cognitor/proxy/think_parser.go:22-190 | a whole run with a callback that does not fail delivers the reference parse of the concatenation and loses nothing |
| Utf8Stream.FeedsDependOnConcat | ark/infra/llamacpp/chat.go:46-84 | cumulative output and held bytes depend only on the concatenated input; nothing is lost or reordered; at most three bytes are held |
| Utf8Stream.EmitsWellFormedIff | ark/infra/llamacpp/chat.go:46-84 | every string handed out, with the final flush, is well-formed UTF-8 (section 4 of RFC 3629) exactly when the whole input is, however it was cut |
| Utf8Stream.BoundaryGrows | ark/infra/llamacpp/chat.go:53-72 | scanning a longer input passes the earlier stop and goes on from the held bytes |
| Utf8Stream.BoundaryHoldsAtMostThree | ark/infra/llamacpp/chat.go:55-65 | the scan leaves at most three bytes |
| Utf8Stream.WellFormedIsAllEmitted | ark/infra/llamacpp/chat.go:55-65 | of well-formed input nothing is held back |
| Utf8Stream.UnitSizeIff | ark/infra/llamacpp/chat.go:55-65 | the scan takes a character whole, waits exactly when more bytes could make one of what is left, and otherwise takes one byte |
| Utf8Stream.Resynchronises | ark/infra/llamacpp/chat.go:55-65 | whatever bytes come before, the scan goes on at a byte that is no continuation as if the input started there |
| Utf8Stream.UTF8StreamBuffer.Feed | ark/infra/llamacpp/chat.go:46-74 | one chunk: returns the buffered bytes up to the end of the last complete unit and holds the others |
| Utf8Stream.UTF8StreamBuffer.Flush | ark/infra/llamacpp/chat.go:76-84 | returns what is held and empties the buffer |
| Utf8Stream.FeedAll | ark/infra/llamacpp/chat.go:46-84 | a whole run: outputs and rest are the input, and well-formed exactly when it is |
| StopWords.DetectorRun | ark/infra/llamacpp/chat.go:107-148 | the run stops exactly when the concatenation contains a stop word; until then emitted and held text are the whole input, it contains no stop word, and the held part is the longest suffix that is a proper prefix of a stop word |
| StopWords.DetectBeforeStop | ark/infra/llamacpp/chat.go:107-141 | until a stop word completes the state depends only on the concatenated input |
| StopWords.DetectAtStop | ark/infra/llamacpp/chat.go:110-117 | the run stops at exactly the chunk that completes a stop word, having emitted the input up to the first occurrence of the first listed stop word present |
| StopWords.SingleStop | ark/infra/llamacpp/chat.go:107-148 | with one stop word the emitted text is everything before its first occurrence |
| StopWords.FirstStopDecides | ark/infra/llamacpp/chat.go:110-117 | if the first listed stop word occurs in all of them, the text is cut at its first occurrence however it arrives |
| StopWords.ChunkingIrrelevantIff | ark/infra/llamacpp/chat.go:107-148 | that chunk boundaries do not matter is true of a stop list exactly when its first stop word occurs inside every stop word of the list |
| StopWords.ChunkingMatters | ark/infra/llamacpp/chat.go:110-117 | for every other list some text is cut at different places when it arrives whole and in two pieces |
| StopWords.StopDetector.Process | ark/infra/llamacpp/chat.go:107-141 | one chunk: what is emitted, held, and whether a stop word was met |
| StopWords.StopDetector.FlushRemaining | ark/infra/llamacpp/chat.go:143-148 | returns the held text and empties the buffer |
| StopWords.LongestPrefixAtEnd | ark/infra/llamacpp/chat.go:119-129 | the length of the longest suffix that is a proper prefix of some stop word |
| StopWords.CleanStops | ark/infra/llamacpp/chat.go:93-101 | keeps exactly the stop words that are not empty, in order |
| StopWords.NonEmptyOfAppend | ark/infra/llamacpp/chat.go:93-101 | the order of the stop words is kept |
| StopWords.DetectAll | ark/infra/llamacpp/chat.go:107-148 | a whole run: emitted text and whether it stopped |
| LlamaRunner.ArgMax | ark/infra/llamacpp/runner_cgo.go:173-181 | the lowest index with the greatest logit |
| LlamaRunner.Runner.SampleNext | ark/infra/llamacpp/runner_cgo.go:131-192 | prefill at cache position 0, else one decode step; from a cache that holds all earlier tokens the result is the lowest argmax of a full forward pass over the list and the cache then holds the list; it fails exactly on a closed runner, an empty list or a failing C call, each with its error |
| LlamaRunner.Runner.Forward | ark/infra/llamacpp/runner_cgo.go:80-129 | logits at each marker are those of a full pass over the tokens up to it; afterwards the position is 0 or nothing has changed, and greedy sampling so far stays so; which error it gives, and exactly when |
| LlamaRunner.Runner.ClearKV | ark/infra/llamacpp/runner_cgo.go:208-218 | empties the cache unless closed; then it agrees with every token list |
| LlamaRunner.Runner.Close | ark/infra/llamacpp/runner_cgo.go:245-259 | closes the runner and keeps position, cache and samples |
| LlamaWorker.Loop | ark/infra/llamacpp/worker.go:53-66 | in every sequence of Forward and Generate jobs, with every outcome of the C calls, cancellation and shutdown, every sampled token is the lowest argmax of a full forward pass over the list it was sampled for; so equal lists give equal tokens; every job gets its own kind of answer, in order |
| LlamaWorker.HandleGenerate | ark/infra/llamacpp/worker.go:122-251 | one Generate job: when it fails; how it ends by its context, the engine and the decodes; that it is reported as cancelled exactly if the context was, or a chunk was lost, and it did not stop; its content by cause of ending; token counts within the limit; chunks that concatenate to the content unless a send was cancelled, an error chunk exactly after a failed sample, a last one that ends the stream; the empty cache; the log of samples whose lists grow by the sampled token |
| LlamaWorker.HandleForward | ark/infra/llamacpp/worker.go:68-120 | one Forward job: exactly when it gives no result, and the logits it returns |
| LlamaWorker.SampleLoop | ark/infra/llamacpp/worker.go:171-211 | the loop: its pieces through buffer and detector; no piece is sampled after a cancellation or a failure; which iteration ends it and why, in terms of context, engine, prompt and decode; the finish reason by cause of ending; the samples it takes |
| LlamaWorker.EndsWell | ark/infra/llamacpp/worker.go:171-211 | with a context that is never cancelled, an open engine and decodes that succeed a loop ends by limit, end of sequence or stop |
| LlamaWorker.Finish | ark/infra/llamacpp/worker.go:213-234 | the content after the leftover bytes and the held text |
| LlamaWorker.ContentIsAllPieces | ark/infra/llamacpp/worker.go:213-234 | without stop word and end of sequence the content is the concatenation of all sampled pieces |
| LlamaWorker.ContentAtEndOfSequence | ark/infra/llamacpp/worker.go:185-188 | at end of sequence the held text is dropped: the content is all pieces exactly when no suffix of them is a proper prefix of a stop word |
| LlamaWorker.ContentCutAtFlush | ark/infra/llamacpp/worker.go:213-225 | a stop word completed by the flushed bytes cuts the text like any other |
| LlamaWorker.ContentAtStop | ark/infra/llamacpp/worker.go:206-225 | after a stop word the incomplete bytes left behind are still appended, through the emptied detector |
| LlamaWorker.ContentAtStopIff | ark/infra/llamacpp/worker.go:206-225 | nothing is appended exactly when no incomplete bytes are left, or all of them could begin a stop word, or they begin with one |
| LlamaWorker.ByteAppendedAfterStop | ark/infra/llamacpp/worker.go:206-225 | an input on which a byte is appended |
| SessionLock.RunInv | ark/session/lock.go:32-74 | every interleaving of entering, acquiring, cancelling and unlocking keeps the invariant |
| SessionLock.StepInv | ark/session/lock.go:32-74 | each step keeps the invariant |
| SessionLock.MutualExclusion | ark/session/lock.go:32-74 | at most one caller holds a session |
| SessionLock.Accounting | ark/session/lock.go:33-44 | each entry's count is its waiters, cancelling waiters and holder; its token and its holder add up to one; it is in the map exactly while it is used |
| SessionLock.EnterAlways | ark/session/lock.go:33-44 | any new caller can enter any session, held or not: it is then waiting on the session's entry, whose count is one higher, and nothing else changes |
| SessionLock.HandOver | ark/session/lock.go:46-72 | when the holder unlocks, any waiter of the session can take the lock next |
| SessionLock.CancelAlways | ark/session/lock.go:46-54 | a waiter can give up at any time; it is then out and counted no more |
| SessionLock.UnlockNeverBlocks | ark/session/lock.go:59-72 | returning the token never blocks, because the channel is empty while the lock is held |
| SessionLock.Progress | ark/session/lock.go:46-57 | unless somebody holds the session each waiter can take the token at once; a cancelled one can always leave |
| SessionLock.NoLeak | ark/session/lock.go:49-52 | when every call is over the map is empty |
| SessionHistory.AssistantService.AppendHistoryWithMeta | internal/app/assistant/service.go:130-204 | one append: the stored session becomes the one specified, other sessions stay; the empty id is refused without a change |
| SessionHistory.AssistantService.CompressSessionIfNeeded | internal/app/assistant/service.go:206-254 | keeps the last four messages, the number of the last compressed one and the trimmed summary, or changes nothing if the history is short or there is no summary |
| SessionHistory.AssistantService.HighestSeq | internal/app/assistant/service.go:140-145 | the largest number in the history, at least 0 |
| SessionHistory.AppendKeepsSeqOkIff | internal/app/assistant/service.go:140-150 | an append keeps the history strictly increasing above the compressed maximum exactly while the largest number can still be incremented in 32 bits |
| SessionHistory.RunsConserveMessages | internal/app/assistant/service.go:130-254 | over every run of appends with compressions that succeed or fail, the dropped messages followed by the history are all appended messages in order, numbered 1, 2, 3, ... |
| SessionHistory.NumbersWrapAt | internal/app/assistant/service.go:140-149 | append number 2^31 of any run gets the number -2^31 |
| SessionHistory.RunIsSeqOk | internal/app/assistant/service.go:140-254 | the history of every run is strictly increasing above the compressed maximum |
| SessionHistory.AppendStep | internal/app/assistant/service.go:130-254 | an append compresses exactly when triggered, answered and on top of at least four messages: then exactly the last four messages of the log stay and the answer is the summary, else the history grows by the new message and the summary stays; the compressed maximum never falls; provider and model change if given |
| SessionHistory.AppendedMeans | internal/app/assistant/service.go:130-254 | the same on any session, with the messages that stay and the number that is kept |
| SessionHistory.SummaryOfRun | internal/app/assistant/service.go:206-254 | the stored summary is the answer to the last append of the run that compressed, empty if none did |
| SessionHistory.ActiveOfRun | internal/app/assistant/service.go:161-166 | the active provider and model are the last ones given in the run, empty if none was |
| SessionRequests.RequestsAreSerial | internal/app/assistant/service.go:130-204 | in every interleaving of requests that read and save under the session lock, each session is the result of running the appends one after the other, those of one request in one piece |
| SessionRequests.NoMessageLost | internal/app/assistant/service.go:130-254 | so the dropped messages followed by the stored history are all appended messages, numbered in the serial order |
| SessionRequests.LogIsSaves | internal/app/assistant/service.go:130-204 | that serial order is the order of the saves of the run, and contains each of them |
| SessionRequests.RequestCanAppend | internal/app/assistant/service.go:130-204 | a request that holds the lock can always read, save and unlock, whatever the others do: the append works on the stored session, and no other one changes |
| SessionRequests.LockRuns | internal/app/assistant/service.go:130-204 | requests drive the lock by runs of its own protocol, so that its results hold for them |
| SessionRequests.StepInv | internal/app/api/grpc/autopilot.go:17-22 | reading, saving and every step of the lock keep the invariant of store, copies and lock |
| SessionRequests.RunInv | internal/app/api/grpc/autopilot.go:17-22 | so does every run |
| ToolManager.StepInv | internal/bionic/tool/tools.go:190-409 | registering, every critical section of a call, unloading and collecting keep the invariant |
| ToolManager.RunInv | internal/bionic/tool/tools.go:190-409 | so does every run |
| ToolManager.OneLoader | internal/bionic/tool/tools.go:334-354 | a tool has at most one loader at a time, and no runtime meanwhile |
| ToolManager.InFlightIsUse | internal/bionic/tool/tools.go:340-370 | the counter is the number of calls between acquire and release, which all use the current runtime, never one that was handed out for closing |
| ToolManager.LoadedOnce | internal/bionic/tool/tools.go:326-409 | every loaded runtime is current or was handed out for closing, exactly once; nothing else is closed |
| ToolManager.SleeperIsWoken | internal/bionic/tool/tools.go:334-353 | a call asleep on the condition has a loader to wait for and is awake when that load ends, well or badly |
| ToolManager.CollectedIsIdle | internal/bionic/tool/tools.go:392-409 | a collected runtime is used by nobody, and every call that used it released it at least the idle time ago |
| ToolManager.CollectedIff | internal/bionic/tool/tools.go:392-409 | a sweep takes a runtime away exactly when no call uses it and every call that did has released it at least the idle time ago |
| ToolManager.UnloadTakesIff | internal/bionic/tool/tools.go:372-390 | an unload takes the runtime away exactly when no call uses it, and then hands it out; else nothing changes |
| ToolManager.CallUsesRuntime | internal/bionic/tool/tools.go:326-347 | in every reachable state a call uses the current runtime at once, and is counted |
| ToolManager.CallLoadsRuntime | internal/bionic/tool/tools.go:326-359 | without runtime and load it loads one, uses what was loaded or fails, and leaves the tool ready for the next call |
| ToolManager.CallReleases | internal/bionic/tool/tools.go:362-370 | a call that uses a runtime can always give it back |
| ToolManager.CollectIsPointwise | internal/bionic/tool/tools.go:397-408 | collecting does not depend on the order of the map and treats exactly the expired tools |
| ToolManager.CloseIsSafeIff | internal/bionic/tool/tools.go:301-315 | no reachable state has a runtime in use handed out for closing; closing the manager leads to one exactly when some tool has calls in flight |
| ToolManager.CloseHandsOutAll | internal/bionic/tool/tools.go:301-315 | after closing the manager every loaded runtime was handed out, once |
| ToolManager.LoadOutlivesClose | internal/bionic/tool/tools.go:301-359 | a load in progress ends after the close with a current runtime in use that was handed out to nobody |
| ToolManager.CloseInterruptsCall | internal/bionic/tool/tools.go:301-324 | a reachable state in which closing the manager takes a runtime away from a call |
| ToolManager.UnloadIsClientSafeIff | internal/bionic/tool/tools.go:372-390 | from a state in which no call uses a closed client, the state after an unload has none exactly when nothing was taken away or every tool that shares the client is idle |
| ToolManager.CollectIsClientSafeIff | internal/bionic/tool/tools.go:392-409 | the same for the idle sweep, over all expired tools |
| ToolManager.RegisterOrphansIff | internal/bionic/tool/tools.go:190-205 | a registration loses a runtime, which is then neither current nor ever handed out for closing, exactly when its name without the white space around it is that of a tool with a runtime |
| ToolManager.RegisterOrphansRuntime | internal/bionic/tool/tools.go:190-205 | a reachable state in which it does so under a call, with the name ' a' over the tool 'a' |
| ToolManager.Manager.Close | internal/bionic/tool/tools.go:301-324 | every current runtime is taken away and closed, and the first failure reported |
| ToolManager.SharedClientClosed | internal/bionic/tool/mcp_loader.go:214-222 | with a client shared by two tools, a reachable state without a closed client in use, from which unloading the idle tool and the next sweep both lead to one with |
| ToolManager.ReloadUsesClosedClient | internal/bionic/tool/mcp_loader.go:214-222 | a call that loads a runtime with a closed client again uses that closed client |
| ToolManager.AllClosedIff | internal/bionic/tool/tools.go:291-299 | an idle sweep closes every collected runtime exactly when no close but the last one's fails |
| ToolManager.Manager.Register | internal/bionic/tool/tools.go:190-206 | refuses a blank name, a missing loader, an unknown kind and a name that is taken; else adds the tool under the trimmed name, without a runtime, with five minutes of idle time for non-positive ones |
| ToolManager.Manager.LookUp | internal/bionic/tool/tools.go:327-347 | the part of acquire before the load: unknown, asleep, using, or loading, with the new state of the tool |
| ToolManager.Manager.FinishLoad | internal/bionic/tool/tools.go:349-359 | the part of acquire after the load |
| ToolManager.Manager.Release | internal/bionic/tool/tools.go:362-370 | counts down, not below zero, and notes the time |
| ToolManager.Manager.DetachRuntime | internal/bionic/tool/tools.go:372-390 | takes the runtime away unless there is none or, not forced, it is in use |
| ToolManager.Manager.CollectExpired | internal/bionic/tool/tools.go:392-409 | the runtimes of exactly the expired tools, each taken away |
| ToolManager.Manager.UnloadIdle | internal/bionic/tool/tools.go:291-299 | closes the collected runtimes up to the first failure |
| Decimals.DecimalIsInjective | internal/infra/mcp/mcp.go:105-123 | different integers have different keys |
| JsonRpcIds.MatchesIff | internal/infra/mcp/mcp.go:105-123 | the response ids that find call n: the integer, any float that rounds to it, the text of its digits, and no others, whatever their type |
| JsonRpcIds.EchoFindsIff | internal/infra/mcp/mcp.go:116-117 | an id repeated as a JSON number finds its call exactly when it is a float64: below 2^53, or the double of such a number, and so on |
| JsonRpcIds.NearestFloat64 | internal/infra/mcp/mcp.go:116-117 | the echo is the nearest float64, and of two the one with the even significand |
| JsonRpcIds.RoundHalfEvenIff | internal/infra/mcp/mcp.go:116-117 | the text of a float is that of the nearest integer, and of two of the even one |
| JsonRpcIds.SmallIdsEcho | internal/infra/mcp/mcp.go:116-117 | so every id up to 2^53 does |
| JsonRpcIds.FirstLostEcho | internal/infra/mcp/mcp.go:116-117 | 2^53 + 1 does not |
| McpClient.StepInv | internal/infra/mcp/stdio.go:209-326 | each critical section and channel operation keeps the invariant of table, channels, calls and reader |
| McpClient.RunInv | internal/infra/mcp/stdio.go:209-326 | so does every run |
| McpClient.NeverPanics | internal/infra/mcp/stdio.go:209-218 | nothing is sent on a closed channel; what the table names is open |
| McpClient.ResponseIsForItsCall | internal/infra/mcp/stdio.go:234-274 | a call returns only a response that was received and whose id has its key and that of no other call |
| McpClient.DeliveryNeverBlocks | internal/infra/mcp/stdio.go:314-321 | if the server answers each id at most once the reader never blocks inside the mutex |
| McpClient.AnswerArrives | internal/infra/mcp/stdio.go:262-321 | the first answer to a waiting call is the one it receives and, once it leaves, the one it returns |
| McpClient.OutcomeStays | internal/infra/mcp/stdio.go:234-274 | what a call took from its select is what it returns: no step of anybody changes an outcome |
| McpClient.OutcomeOfRun | internal/infra/mcp/stdio.go:247-274 | every outcome in a run has its event: the call's cancellation, the end of the client, a failed write, the response at the head of its channel, or its channel closed and empty |
| McpClient.StepsAreEnabled | internal/infra/mcp/stdio.go:209-326 | no caller is kept out: new calls start under the next number, waiting ones can be cancelled, and with the mutex free calls, reader and Close go on |
| McpClient.StrayLine | internal/infra/mcp/stdio.go:311-321 | a line without id or for no call in the table changes nothing |
| McpClient.NoCallStaysBlocked | internal/infra/mcp/stdio.go:262-274 | if the server answers each id at most once, after Close every call has a next step at once and returns within four |
| McpClient.RankNeverFalls | internal/infra/mcp/stdio.go:234-274 | no step of anybody takes a call back |
| McpClient.TableIsCleaned | internal/infra/mcp/stdio.go:241-245 | when all calls have returned the table is empty |
| McpClient.BlockedForeverIff | internal/infra/mcp/stdio.go:314-321 | a reader blocked in a delivery can get free exactly when the buffer has room or the call is still in its select |
| McpClient.StuckForever | internal/infra/mcp/stdio.go:241-321 | otherwise no call ever returns again and Close never gets the mutex |
| McpClient.RepeatedAnswerBlocks | internal/infra/mcp/stdio.go:241-321 | a server that answers an id twice while the caller gives up leads there |
| McpClient.TableSteps | internal/infra/mcp/stdio.go:215-245 | registering, leaving and closing change table and channels as the client's methods do |
| McpClient.StdioClient.Register | internal/infra/mcp/stdio.go:235-239 | puts a fresh channel in the table under the call's key |
| McpClient.StdioClient.Forget | internal/infra/mcp/stdio.go:241-245 | takes the key out of the table |
| McpClient.StdioClient.CloseChannels | internal/infra/mcp/stdio.go:215-218 | closes exactly the channels in the table and empties it |
| RateLimiting.AllowedIff | internal/brain/rate_limiter.go:30-49 | a call is allowed exactly when, for every window of calls that ends with it, the allowed calls with this one stay within rpm + T * rpm / 60 |
| RateLimiting.WindowBound | internal/brain/rate_limiter.go:30-49 | so no window of length T ever allows more than rpm + T * rpm / 60 calls |
| RateLimiting.LevelIsLeastRoom | internal/brain/rate_limiter.go:38-42 | the tokens are the least room that any window leaves |
| RateLimiting.TokensInRange | internal/brain/rate_limiter.go:38-48 | the tokens stay between 0 and rpm |
| RateLimiting.RateLimiter.Allow | internal/brain/rate_limiter.go:30-49 | one call: its verdict and the new fields |
| RateLimiting.RateLimiter.Wait | internal/brain/rate_limiter.go:51-56 | with readings a tenth of a second apart a lone Wait returns after n sleeps with (n - 1) * rpm < 600; all its calls but the last are refused |
| RateLimiting.RateLimiter.SpendOne | internal/brain/diencephalon.go:366-373 | exactly one of the calls that a model request makes is allowed, the last |
| PlanRelay.RoundTripIff | internal/brain/diencephalon.go:279-288 | a printed plan is parsed back to itself exactly when it has a step, each step is one trimmed line without list mark, and the intent adds no step |
| PlanRelay.PrintedLines | internal/brain/diencephalon.go:279-288 | the printed plan has the lines of the intent, then those of the steps |
| PlanRelay.SilentIff | internal/brain/diencephalon.go:279-288 | an intent on one line adds no step exactly if it is blank or one of the three keywords |
| PlanRelay.BaseIsGoalIff | internal/brain/diencephalon.go:327-335 | the base of a step's goal id is the goal exactly when that has at least two bytes |
| PlanRelay.BareGoalIff | internal/brain/diencephalon.go:327-335 | an id without step number keeps its session exactly when it has no hyphen from its third byte on |
| PlanRelay.WideGoal | internal/brain/diencephalon.go:327-335 | a goal of one character with three bytes is found, and one with a hyphen after that character is not |
| PlanRelay.StepsAreCarriedOut | internal/brain/diencephalon.go:274-301 | whatever the model answers, its steps and one correction for each lead to one command per step, in order, then to the answer with the summary of all results, which ends the session; no other session changes |
| PlanRelay.PlanIsCarriedOut | internal/brain/diencephalon.go:274-301 | a plan that can be parsed back is carried out step by step as it was sent |
| BrainLoop.EveryPlanFinishes | internal/brain/diencephalon.go:274-301 | relay and cerebellum together: for every answer of the model and every outcome of tools, replies and Copilot, a goal of at least two bytes gets one round per step, each step commanded once in order, and then its answer |
| BrainLoop.ShortGoalStalls | internal/brain/diencephalon.go:291-301 | a shorter goal never gets its answer: its first correction goes to a session without a plan |
| PlanRelay.SessionFollowsReasoner | internal/brain/diencephalon.go:274-301 | while results come in the session is what the reasoner makes of them and the commands are the steps in order |
| PlanRelay.DiencephalonNode.Handle | internal/brain/diencephalon.go:274-301 | one message: the sessions and what is sent, as specified |
| PlanRelay.DiencephalonNode.GetOrCreateState | internal/brain/diencephalon.go:337-350 | the state of the session, fresh if it is new; no two sessions share one |
| PlanRelay.DiencephalonNode.Drive | internal/brain/diencephalon.go:352-400 | the reasoner's decision on one session; the others keep their state |
| PlanExecute.ParsePlan | internal/reasoning/planner/plan_execute.go:40-71 | the steps of a model's answer, with the keyword line, blank lines and list marks removed and the fallback for none |
| PlanExecute.MarkedStep | internal/reasoning/planner/plan_execute.go:53-66 | behind a dash, a star or a short number with its dot the parser finds the text, all of it and nothing else, however the line is indented |
| PlanRelay.ListIsParsed | internal/reasoning/planner/plan_execute.go:40-71 | of a numbered or bulleted answer exactly the texts behind the marks become the steps, in order |
| PlanRelay.NoStepFallback | internal/reasoning/planner/plan_execute.go:68-71 | an answer without any step gets the two fallback steps |
| PlanExecute.StepIsSuffix | internal/reasoning/planner/plan_execute.go:53-66 | whatever the line, its step is an end of the trimmed line |
| PlanExecute.CleanIff | internal/reasoning/planner/plan_execute.go:53-66 | a line gives itself as its step exactly when it is trimmed and has no list mark; a number mark ends before the fifth byte |
| PlanExecute.WideStep | internal/reasoning/planner/plan_execute.go:60-62 | a step with two wide characters before the dot has no number mark |
| PlanExecute.State.Decide | internal/reasoning/planner/plan_execute.go:26-153 | the new dashboard and the answer for every kind of event |
| PlanExecute.StepsAreDispatchedInOrder | internal/reasoning/planner/plan_execute.go:40-142 | for every answer of the model and every result: the steps are dispatched once each in order, then comes the finish; earlier steps are completed with their results, one is running, later ones are pending |
| PlanExecute.StepIDsDiffer | internal/reasoning/planner/plan_execute.go:72-95 | no two steps of a plan have the same id |
| PlanExecute.OtherEventsKeepPlan | internal/reasoning/planner/plan_execute.go:30-153 | queries and errors in between leave a plan where it is, and a result without a plan is refused |
| PlanRelay.SummaryLines | internal/reasoning/planner/plan_execute.go:130-142 | the lines of the final answer are those of the heading and then of each step's action with its result, in order |
| Cerebellum.PageBudget | internal/brain/cerebellum.go:125-383 | a page delegates exactly at the first counted call above ten at which the Copilot is found |
| Cerebellum.ElevenCalls | internal/brain/cerebellum.go:17-383 | with a Copilot that is always there a page counts at most eleven calls and delegates exactly when it reaches eleven |
| Cerebellum.NoCopilotNoDelegation | internal/brain/cerebellum.go:145-353 | without one it never delegates |
| Cerebellum.StepCalls | internal/brain/cerebellum.go:209-353 | a step makes at most two counted calls |
| Cerebellum.VerifyStep | internal/brain/cerebellum.go:138-206 | content with neither word goes up unchanged and costs nothing; other content is reported as invalid, with the tool's result and for one call if it is about 2+2 or math |
| Cerebellum.ReactStep | internal/brain/cerebellum.go:208-292 | the model is asked with nothing and then with the failure or tool result its reply led to; the first reply that is neither gives the answer, without one it is empty; each tool call is counted |
| Cerebellum.CopilotStep | internal/brain/cerebellum.go:294-327 | a delegated task costs no counted call, and what the Copilot says goes up even if it failed |
| Cerebellum.PlainStep | internal/brain/cerebellum.go:329-383 | any other step but respond is one counted call, with a report that does not have the observation |
| BrainLoop.OneStepPage | internal/brain/cerebellum.go:125-410 | a page with one step never delegates and sends exactly one correction |
| Cerebellum.PageReports | internal/brain/cerebellum.go:125-383 | each step reports once, under its own number, in order; of a step that delegates only a reasoning step does |
| Cerebellum.PageSentMeans | internal/brain/cerebellum.go:125-410 | a page sends one correction per step; with delegation at step i it sends i or i+1, then the delegation with the steps before i as completed and the others as remaining |
| Cerebellum.DelegationNames | internal/brain/cerebellum.go:387-410 | the delegation counts the steps before it, names them as completed and the others as remaining |
| Cerebellum.CorrectionsFindGoalIff | internal/brain/cerebellum.go:133-409 | which corrections reach the session of the goal: those of steps if it has two bytes, the delegation if it has no hyphen from its third byte on |
| Cerebellum.CerebellumNode.Orchestrate | internal/brain/cerebellum.go:121-410 | one page: what it sends, as specified |
| Cerebellum.CerebellumNode.RunStep | internal/brain/cerebellum.go:125-383 | one step: calls counted, what it sends, whether it delegates |
| Cerebellum.CerebellumNode.ReactLoop | internal/brain/cerebellum.go:213-272 | the reasoning loop of a step: calls counted, last answer, whether it delegates |
| Cerebellum.CerebellumNode.Verify | internal/brain/cerebellum.go:139-206 | a verification step |
| RingBuffers.PushAllIsLastN | internal/bionic/context/context_manager.go:57-66 | after any run of appends the queue holds the last min(n, capacity) elements in order |
| RingBuffers.STMBuffer.Append | internal/bionic/context/context_manager.go:56-66 | one append to the bounded queue |
| RingBuffers.STMBuffer.Configure | internal/bionic/context/context_manager.go:203-223 | a mode may lower the capacity of the empty buffer below the length of its array |
| RingBuffers.StoreAll | internal/bionic/context/context_manager.go:56-133 | a whole run in any mode: the snapshot is the last min(n, capacity) nodes appended, in order, with its boundary |
| RingBuffers.STMBuffer.Snapshot | internal/bionic/context/context_manager.go:68-105 | the stored nodes that are not nil, oldest first |
| RingBuffers.PresentOfAppend | internal/bionic/context/context_manager.go:68-105 | the nodes of a snapshot are those of each stretch of slots, in order, without the nil ones |
| RingBuffers.STMBuffer.ProtectedBoundary | internal/bionic/context/context_manager.go:107-133 | the start of the longest suffix with at most ProtectedTurns distinct turns, none for a negative setting |
| RingBuffers.BoundaryIsUnique | internal/bionic/context/context_manager.go:107-133 | there is only one such start |
| RingBuffers.SignalRingBuffer.Push | internal/brain/ringbuffer.go:25-43 | one append to the bounded queue, nothing for capacity 0 |
| RingBuffers.SignalRingBuffer.Pop | internal/brain/ringbuffer.go:45-60 | takes the oldest signal, or says that there is none |
| RingBuffers.EvictAndPushChannel | internal/brain/ringbuffer.go:69-89 | on a channel that nobody else uses: one append to the bounded queue |
| Distillation.TruncateToolOutput | internal/bionic/context/pipeline.go:166-198 | a tool result cut line by line |
| Distillation.TruncatedMeans | internal/bionic/context/pipeline.go:166-198 | the kept lines are exactly as many trimmed, non-blank ones as fit, with a piece of the next if there is room for more than twenty characters; the note follows exactly unless the content is one short trimmed line |
| Distillation.TruncatedIsShort | internal/bionic/context/pipeline.go:166-198 | at most twice the limit and the note, hence at most 1003 tokens for 2000 characters |
| Distillation.ToolMasking | internal/bionic/context/pipeline.go:130-164 | the masked nodes, one for one |
| Distillation.BlobDegradation | internal/bionic/context/pipeline.go:216-249 | the degraded nodes, one for one |
| Distillation.MaskedStandsFor | internal/bionic/context/pipeline.go:139-160 | which nodes are masked, and that a masked one names the node it replaces, keeps turn, role and type, has the cut content and its estimate, and costs at most 1003 |
| Distillation.DegradedStandsFor | internal/bionic/context/pipeline.go:227-245 | which nodes are degraded, and that a degraded one names the node it replaces, keeps turn, role and type, says what it cost, and costs 20 |
| Distillation.PointwiseStages | internal/bionic/context/pipeline.go:130-249 | masking and degrading keep every node in its place or put a cheaper one there that names it; total tokens never rise |
| Distillation.NodeDistillation | internal/bionic/context/pipeline.go:268-330 | groups by turn in order of first appearance and distils the turns above the threshold |
| Distillation.DistillationPerTurn | internal/bionic/context/pipeline.go:268-330 | turn by turn distillation keeps the nodes in order, or puts one summary there that names exactly these nodes in this order |
| Distillation.TurnsStayInOrder | internal/bionic/context/pipeline.go:274-328 | the turns come out in the order in which they went in, the nodes of each side by side |
| Distillation.TurnOrderGrows | internal/bionic/context/pipeline.go:274-286 | that order is the order of first appearance |
| Distillation.SummaryOfTurn | internal/bionic/context/pipeline.go:300-325 | a summary has the question on the user's side and the answers on the model's, each cut to its own length |
| Distillation.PartsOfAppend | internal/bionic/context/pipeline.go:300-310 | a node's content is on its own side, and the order is kept |
| Distillation.RegroupedIsPermutation | internal/bionic/context/pipeline.go:274-286 | grouping by turn loses and repeats nothing |
| Distillation.DistillationCostsLess | internal/bionic/context/pipeline.go:288-328 | distillation never makes the list longer, nor, with turn ids of at most 59266 characters, dearer |
| Distillation.DistilledTurnCostsLessIff | internal/bionic/context/pipeline.go:295-325 | that a summary never costs more than its turn, whatever is in it, is true of a turn id exactly when it has at most 59266 characters |
| Pipeline.PipelineOrchestrator.Run | internal/bionic/context/pipeline.go:81-112 | the nodes that the enabled stages compute from the snapshot and its boundary, unless the context is done before one of them, and exactly then an error; the buffer is not changed |
| Pipeline.DefaultChainIs | internal/bionic/context/pipeline.go:81-112 | for every subset of the default processors: the result is the stand-ins of the nodes below the boundary, distilled, before the unchanged protected nodes, less what truncation takes off the front |
| Pipeline.ProtectedSuffixIff | internal/bionic/context/pipeline.go:99-108 | for every subset of the default processors: the protected nodes come out unchanged, except exactly when truncation runs on a list still longer than the boundary and distillation has left over 4000 nodes fewer below it than there were; both are counted on the input |
| Pipeline.ProtectedSuffixIsSafe | internal/bionic/context/pipeline.go:99-108 | so they do on snapshots of at most 4000 nodes |
| Pipeline.SmallBufferIsSafe | internal/bionic/context/pipeline.go:82-87 | and on every snapshot of a buffer of at most 4000 slots, as the default one |
| Pipeline.ProtectedNodesLost | internal/bionic/context/pipeline.go:99-108 | a snapshot on which the whole chain loses 999 protected nodes |
| Provenance.EveryNodeIsNamedOnce | internal/bionic/context/pipeline.go:82-325 | for every subset of the compressing processors: each node is named exactly once, as itself, as replaced or as abstracted, up to the name of its stand-in; its own id is named once, unless the node was replaced and its turn distilled after that, when it is named nowhere |
| Provenance.OrderWithinTurns | internal/bionic/context/pipeline.go:268-330 | turn by turn the result stands, in order, for the stand-ins and the protected nodes of the turn in the order of the snapshot |
| Provenance.TruncationDrops | internal/bionic/context/pipeline.go:343-356 | truncation drops exactly the first nodes of the list, as many as counted on the input, with the names in them |
| Provenance.IdleKeepsAll | internal/bionic/context/pipeline.go:99-108 | without nodes to process every node stays and is named once |
| Provenance.StandInNames | internal/bionic/context/pipeline.go:130-249 | masking and degradation replace a node in one step at most, under a name of its own that names the node |
| Provenance.NodeLost | internal/bionic/context/pipeline.go:82-325 | a masked node in a distilled turn: the result names its id nowhere |
| Pipeline.TokensNeverRise | internal/bionic/context/pipeline.go:92-108 | no chain of processors, in any order, makes a context dearer |
| Pipeline.NodeTruncation | internal/bionic/context/pipeline.go:343-356 | the last 4000 nodes |
| Pipeline.PipelineOrchestrator.SetAll | internal/bionic/context/pipeline.go:55-71 | sets every flag and no processor |
| ModelRegistry.Registry.QueryBestModel | internal/infra/model/registry.go:99-136 | whatever the order of the map: the provider and name of the best model, empty exactly when none qualifies |
| ModelRegistry.Registry.BestIsUnique | internal/infra/model/registry.go:94-97 | there is only one best model: most preferred tags, then smallest id |
| ModelRegistry.Registry.BestIff | internal/infra/model/registry.go:99-136 | the best model has all required tags and no excluded one, and every other such model has fewer preferred tags, or as many and a later id |
| ModelRegistry.LessIff | internal/infra/model/registry.go:94-97 | later in the order of a dictionary |
| ModelRegistry.Registry.NormIs | internal/infra/model/registry.go:145-146 | tags that differ only in case and white space around them are one tag |
| ModelRegistry.Registry.Register | internal/infra/model/registry.go:37-64 | the error cases, and the one entry that changes, with normal tags |
| ModelRegistry.Registry.NormalizeTags | internal/infra/model/registry.go:141-157 | the set of normal tags, without the empty one, as a strictly sorted list |
| ModelRegistry.SortedIsUnique | internal/infra/model/registry.go:141-157 | such a list is determined by its set |
| ModelRegistry.Registry.HasAny | internal/infra/model/registry.go:167-174 | whether the tags meet the excluded ones |
| ModelRegistry.Registry.ContainsAll | internal/infra/model/registry.go:176-184 | whether all required tags are present |
| ModelRegistry.Registry.CountMatches | internal/infra/model/registry.go:186-194 | how many tags are preferred |

## Left out

- Texts are sequences of characters, and bytes where the source works on bytes; an offset that the source compares with a number is counted in bytes (`GoStrings.ByteLen`); invalid UTF-8 inside Go strings is not modelled outside `Utf8Stream`.
- Lower-casing of tags is a parameter of the registry.
- The C library, real logits and NaN: the model is deterministic and its logits totally ordered. The 32-bit cache position does not wrap.
- Submission to the worker's queue, and consumers that never read a stream.
- Stage, provider and model names in stream events; the order of `Meta` entries.
- Message times, provider statistics and token estimates of sessions: whether compression triggers, and what the summary is, are inputs. Loading of CLI logs for unknown sessions.
- The unlock function as a value: each Lock call has its own, and calling it again is a step without effect.
- Registering public tools on every call, tool descriptions and parameters. Runs of the tool protocol register trimmed names only and do not go on after Manager.Close; the reload of MCP servers is left out.
- ToolManager.StepInv: does not model a loader that returns a runtime which it has returned before; runtimes that share a client are told apart.
- ToolManager.Manager.FinishLoad: does not model a loader that returns neither a runtime nor an error, on which the call would panic.
- MCP: a write to the server finishes; the model's reader may go on after Close, where the code's stops; the initialize handshake is a call like any other; the 64-bit request counter does not wrap; negative zero as an id.
- Rate limiting is on real numbers: rounding of floats is not modelled.
- Relay and cerebellum: the five-second drop timeouts, cancellation, topic detection, other reasoners, and the review of exceeded loops. Events of one session are handled one at a time.
- RingBuffers.EvictAndPushChannel: does not model other goroutines on the channel.
- The read lock that ProtectedBoundary takes twice (internal/bionic/context/context_manager.go:110, 119).
- Provenance.EveryNodeIsNamedOnce: does not model nodes with equal ids, such as two results of one tool in one turn (internal/bionic/context/context_manager.go:616), or with ids that look like those of stand-ins and summaries.
- Node timestamps, versions and metadata; nil nodes inside the processors, which a snapshot never contains; processors with other thresholds than the defaults.
- ModelRegistry.Registry.NormalizeTags: sorts by insertion where the source calls a library.
- HTTP, gRPC, SSE, subprocess, file-system and database code; supervisors, prompt builders, telemetry, access rules of the context bridge.
