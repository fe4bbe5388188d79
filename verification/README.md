# Verification model of the agent SDK core

A Dafny 4.11 model of the parts of this Go SDK that hold state together: the in-process event bus,
the live run and stream registries, sub-agent validation and unfolding, the A2A executor, the
configuration digests a caller and a worker compare, the in-memory memory store, the hook runners,
the tool registries, and the name, metrics and telemetry code beside them.

Check everything with `dafny verify dfyconfig.toml`.

## How the pieces are modelled

- **Event bus.** `EventBus.dfy` is a state machine whose steps are the actions between two
  scheduling points: announcing, taking and releasing the read-write lock (with Go's rule that a
  waiting writer holds back new readers), reading the slice header, one send of the publish loop,
  the in-place splice, one close, one receive, a context ending. Sending on a closed channel and
  closing twice set `panicked`, as in Go, and nothing in the step function prevents them.
  `EventBusSafety.dfy` proves the invariant and its consequences, `EventBusDelivery.dfy`
  exactly-once delivery over whole runs, `EventBusReturns.dfy` what each call returns and leaves
  behind, `EventBusProgress.dfy` when the bus can stand still and that a waiting writer is not
  starved, `EventBusBound.dfy` that with no new calls every run ends.
  `InmemBus.dfy` has the exclusive critical sections of Subscribe, the close function and Close as
  methods on real backing arrays and shows that each changes the lists, the closed channels and the
  closed flag as the machine's steps do, a Close as any run from its first step to its last.
- **Run and stream registries.** `RunRegistry.dfy` interleaves starters, reconnecting callers and one
  waiter per handle over the shared store of `KV.dfy`; `RunStore.dfy` shows that each store operation
  is the step it stands for. A call's Get and Set are separate steps. The
  runtime is assumed to mint fresh run ids, to close Done only after the run finished, to keep
  finished runs finished, to return handles for the run asked for, and to reconnect only to runs
  that have not finished, and to report as completed only runs that have.
- **Sub-agents.** `SubAgents.dfy` runs the depth-first search with its shared path set, and the
  unguarded recursion after it, on agents as heap objects, against a statement about all walks.
- **A2A executor.** `A2AExecutor.dfy` drives a yield callback that Go forbids to call after it returned
  false. Artifact ids come from a generator that never gives the empty string, as the library's does.
- **Digests.** `StringOrder.dfy`, `Digests.dfy`, `Filters.dfy`, `Fingerprints.dfy` and `Policies.dfy`
  build the digest inputs by loops over maps in any order and prove what equal inputs mean.
- **Memory store.** `MemoryScopes.dfy`, `MemoryStore.dfy` (values and histories) and
  `InmemMemory.dfy` (the object and the map objects it owns). Each record's expiry is judged at the
  time read when that record is visited.
- **Hooks.** `Hooks.dfy` has the runner loop and its fold, for hooks that may change the world around
  them; `HookPoints.dfy` the runners of the ten hook points, with scope tags, record metadata and tool
  arguments as map objects in that world, shared or copied where the code shares or copies them;
  `HookMerge.dfy` merging on real slices (`GoSlices.dfy`).
- **Registries, names, benchmarks, telemetry.** `Registries.dfy`, `Names.dfy`, `Benchmarks.dfy`,
  `Telemetry.dfy`. `Selections.dfy` has what it means for a list to be another with elements left out.

## Where the code and its documentation part

- `GetAgentRun` and `GetAgentStream` promise that a handle registered for a run is the one returned.
  Overlapping reconnects to one live run return different handles (`OverlappingReconnectsDisagree`);
  `HandleCanChangeIff` says exactly when the registered handle can still change.
- `GetAgentStream` documents that a terminal Status clears the entry; the code looks at Done. A run can
  have finished and its handle still be returned and stay registered (`TerminalStatusDoesNotClear`);
  `FinishedRunIsClearedIff` and `LookupAnswersByDone` say exactly when the entry is cleared.
- The memory hook runners call the scope read-only context. Its fields are, but its tags are one map
  object handed to every hook, so a hook can move a load or a store to another scope while returning
  everything unchanged (`HookMovesTheLoad`, `HookMovesTheStore`). A scope is read-only for all hooks
  exactly when it has no tags (`LoadScopeIsSafeIff`, `LoadedScopeIsSafeIff`, `StoreScopeIsSafeIff`);
  `StoredCallIsSafeIff` and `ExecutedArgsAreSafeIff` say the same of metadata and tool arguments.
- Policy fingerprints are meant to make caller and worker agree on approvals. Names are joined by
  commas and may contain them, so different allowlists can share a fingerprint
  (`CommaCollision`, `FingerprintIsSharedIff`, `BuiltFingerprintIsSharedIff`).
- The MCP fingerprint is documented to cover the transport identity. Its row does not show the HTTP
  transport's TLS verification flag (the A2A row shows its own), so configurations that differ only
  there share a digest (`TlsFlagIsNotShown`; `TransportRowsAgreeIff` lists all that counts).
- `Clear` is guarded against empty scopes, but a scope whose only tags are reserved keys passes the
  guard and matches every record (`GuardMissesIff`, `ClearRemovesEverythingIff`, `ReservedTagClearsTheStore`).

## Model

| member | source | states |
|---|---|---|
| `EventBusSafety.NeverPanics` | internal/eventbus/inmem.go:21-28 | In no interleaving of publishers, subscribers, unsubscribers, closers, receivers and context cancellations is a message sent on a closed channel or a channel closed twice. |
| `EventBusSafety.StepKeeps` | internal/eventbus/inmem.go:50-119 | Every step of every goroutine keeps the bus invariant: lock ownership, disjoint backing arrays, open channels are exactly those listed or left to the writer at work, queues bounded. |
| `EventBusSafety.ReachableInv` | internal/eventbus/inmem.go:50-119 | The invariant holds in every state any run from the empty bus reaches. |
| `EventBusSafety.ListedIffOpen` | internal/eventbus/inmem.go:72-119 | Whenever no writer is at work a channel is open exactly when its topic lists it, once, and under no other topic. |
| `EventBusSafety.ClosedBusHasNoOpenChannel` | internal/eventbus/inmem.go:105-119 | After Close has returned every channel ever made is closed. |
| `EventBusSafety.LoopSeesUntouchedTail` | internal/eventbus/inmem.go:56-67 | What a publisher has still to visit is the tail of its topic's list as it was at the lock, all open, although unsubscribing edits the array it iterates. |
| `EventBusSafety.ListedAfterSplice` | internal/eventbus/inmem.go:90-97 | The in-place append splice removes exactly the one channel from its topic's list and leaves other topics alone. |
| `EventBusSafety.ListedAfterRegister` | internal/eventbus/inmem.go:80 | Appending, in spare capacity or to a new array, adds exactly the new channel to its topic's list. |
| `EventBusSafety.TargetOpen` | internal/eventbus/inmem.go:61-64 | The channel of the next send is the next one subscribed when the lock was taken, and it is open. |
| `EventBusDelivery.SlicesRefineLists` | internal/eventbus/inmem.go:50-119 | Every step acts on slices and backing arrays as a plain operation on per-topic lists. |
| `EventBusDelivery.PublishDeliversExactlyOnce` | internal/eventbus/inmem.go:50-69 | In every run a Publish that returns nil has put its data exactly once on each channel open on the topic when it took the lock and on no other; one that returns the context error on exactly a prefix of that list; on a closed bus on none. |
| `EventBusReturns.PublishReturns` | internal/eventbus/inmem.go:50-69 | Which outcome a Publish returns, for every run from its lock to its return: the bus-closed error exactly when the bus was closed then, nil exactly when it was open and every subscriber was sent the data, the context error only when its context has ended and some subscriber was not reached. |
| `EventBusReturns.SubscribeReturns` | internal/eventbus/inmem.go:72-81 | For every run after its critical section a Subscribe returns an error exactly when the bus was closed, and otherwise the one channel it made: new, open, empty and last in its topic's list. |
| `EventBusReturns.CallsKeepTheirArguments` | internal/eventbus/inmem.go:50-105 | In every run a Publish goes on with the topic and data it was called with, a Subscribe with its topic, and a close function with the topic and channel of its own Subscribe. |
| `EventBusReturns.ReturnedHasClosed` | internal/eventbus/inmem.go:83-119 | In every reachable state a close function that has returned has left its channel closed, whether it closed it or found the bus closed or the channel gone, and a Close that has returned has left the bus closed. |
| `EventBusDelivery.ChannelsAreBoundedQueues` | internal/eventbus/inmem.go:79 | On every channel received plus buffered equals sent, in order, with at most 64 buffered. |
| `EventBusProgress.StuckIff` | internal/eventbus/inmem.go:50-119 | The bus stands still exactly when every call has returned, or publishers with live contexts hold the read lock at full channels and everyone else waits behind an announced writer. |
| `EventBusProgress.ReceivingUnblocks` | internal/eventbus/inmem.go:61-67 | If subscribers with buffered messages can receive, every reachable state with an unfinished call can go on, at most one receive later. |
| `EventBusProgress.ReceiveFreesSlot` | internal/eventbus/inmem.go:62-66 | A publisher blocked at a full channel can send after one receive from that channel. |
| `EventBusProgress.CancelUnblocks` | internal/eventbus/inmem.go:61-67 | Ending its context lets a blocked Publish return the context error and leave the lock without any receive. |
| `EventBusProgress.WriterIsNotStarved` | internal/eventbus/inmem.go:16-28 | A waiting unsubscribe, subscribe or Close lets at most a fixed number of further bus steps go first, however many publishers arrive, and can then take the lock. |
| `EventBusBound.EveryRunEnds` | internal/eventbus/inmem.go:50-119 | With no new calls every run is bounded by what is under way: bus steps by the calls' remaining work, calls before their first attempt at the mutex and Close's loop over all topics and channels included, and bus steps with receives by a bound that counts the buffered messages too. |
| `EventBusBound.EndedMeansReturned` | internal/eventbus/inmem.go:50-119 | Where no bus step and no receive is possible any more every call has returned. |
| `InmemBus.Inmem.Subscribe` | internal/eventbus/inmem.go:73-81 | On the real slices: refused on a closed bus, otherwise the topic's list gains exactly the new channel and nothing else changes. |
| `InmemBus.Inmem.CloseFn` | internal/eventbus/inmem.go:83-99 | On the real backing array: removes and closes the channel if it is still listed, and does nothing otherwise or after Close; the close is never a second one. |
| `InmemBus.Inmem.Close` | internal/eventbus/inmem.go:105-119 | Closes every listed channel exactly once and forgets all lists; a second call changes nothing. |
| `InmemBus.SubscribeAgrees` | internal/eventbus/inmem.go:73-81 | The method's effect is the machine's Register step. |
| `InmemBus.CloseFnAgrees` | internal/eventbus/inmem.go:83-99 | The method's effect is the machine's Splice step followed by its CloseOne step. |
| `InmemBus.IdleCloseFnAgrees` | internal/eventbus/inmem.go:87-98 | When the bus is closed or the channel is gone, method and machine both change nothing. |
| `InmemBus.CloseAgrees` | internal/eventbus/inmem.go:105-119 | The method's effect is that of every run from BeginClose to EndClose, whatever order it takes the topics in and whatever others do meanwhile. |
| `InmemBus.IdleCloseAgrees` | internal/eventbus/inmem.go:108-110 | A Close of a closed bus changes nothing, in both. |
| `InmemBus.LockedListsAreOpen` | internal/eventbus/inmem.go:21-28 | What the methods require, that listed channels are open and listed once, holds whenever a writer has just taken the lock. |
| `RunRegistry.StepKeeps` | pkg/agent/agent_run.go:85-102 | Every step of starters, reconnecting callers, waiters and the runtime keeps the registry invariant. |
| `RunRegistry.SetAtMostOnce` | pkg/agent/agent_run.go:85-92 | Each handle is put into the registry at most once. |
| `RunRegistry.RegisteredHandlesHaveWaiters` | pkg/agent/agent_run.go:85-102 | Every registered handle has its waiter at work or about to be spawned, under its own run id. |
| `RunRegistry.SettledRegistryHoldsOnlyLiveRuns` | pkg/agent/agent_stream.go:130-147 | Once all calls and waiters that can finish have finished, no handle of a finished run is left. |
| `RunRegistry.OnlyFinishedRunsAreRemoved` | pkg/agent/agent.go:322-331 | Neither a waiter's conditional delete nor the unconditional delete of a reconnecting call removes a running run's handle, however reconnects overlap. |
| `RunRegistry.LookupsOfLiveRunAgree` | pkg/agent/agent.go:322-347 | With no overlapping reconnect, a live run keeps its handle and every later lookup returns that same handle. |
| `RunRegistry.OverlappingReconnectsDisagree` | pkg/agent/agent.go:322-347 | A run in which two overlapping reconnects to one live run return different handles: the documented same-handle promise fails there. |
| `RunRegistry.HandleCanChangeIff` | pkg/agent/agent.go:376-401 | The registered handle of a live run can still change exactly when a reconnect that missed it is in flight. |
| `RunRegistry.LookupAnswersByDone` | pkg/agent/agent.go:376-387 | Whatever the others do meanwhile, a lookup that found a handle answers AlreadyCompleted and deletes the entry exactly when that handle's Done was closed when it checked; otherwise it deletes nothing and answers the handle. |
| `RunRegistry.MissedLookupAnswers` | pkg/agent/agent.go:333-347 | Whatever the others do meanwhile, a lookup that found nothing answers AlreadyCompleted exactly when the runtime said so, the lookup error exactly when the runtime failed otherwise, and a new handle exactly when the runtime reconnected with that handle. |
| `RunRegistry.StarterAnswersItsHandle` | pkg/agent/agent_run.go:85-92 | A call that started a run answers the handle of that run, whatever happens before it returns. |
| `RunRegistry.CompletedAnswersAreTrue` | pkg/agent/agent.go:322-347 | However a call comes to answer AlreadyCompleted, the run it was made for has finished. |
| `RunRegistry.AnswersAreForTheRun` | pkg/agent/agent.go:322-347 | A handle that a call answers, found or new, is a handle of the run it asked for. |
| `RunRegistry.CallsKeepTheirRun` | pkg/agent/agent.go:322-347 | In every run a call goes on with the run id it was called with. |
| `RunRegistry.LookupDeletes` | pkg/agent/agent.go:379-381 | The delete such a lookup makes is for a finished run, leaves it unregistered and answers AlreadyCompleted. |
| `RunRegistry.FinishedRunIsClearedIff` | pkg/agent/agent.go:354-356 | For a run that has finished, the documented clearing happens exactly when Done is closed already at the check; otherwise the registry stays and the handle is returned. |
| `RunRegistry.TerminalStatusDoesNotClear` | pkg/agent/agent.go:354-387 | A concrete run: it has finished, its Done is not closed yet, and the lookup returns its handle and leaves it registered. |
| `RunStore.RegisterHandle` | pkg/agent/agent_run.go:85-92 | The Set of a new handle on the store object is the machine's Set step: afterwards the run's entry is this handle, one never set before and minted for that run. |
| `RunStore.Unregister` | pkg/agent/agent_run.go:96-102 | The waiter's DeleteIf is the machine's step: it removes the entry exactly when it is still this handle, and then the run has finished. |
| `KVStore.KV.DeleteIf` | internal/store/kv.go:56-66 | Deletes the entry exactly when it still maps to the expected value, and says whether it did. |
| `KVStore.KV.Pop` | internal/store/kv.go:69-78 | Returns the old value and removes the key in one step. |
| `KVStore.KV.Keys` | internal/store/kv.go:41-49 | Lists every key once. |
| `KVStore.DeletedIf` | internal/store/kv.go:56-66 | Afterwards the key does not map to the expected value, and every other entry is as it was. |
| `SubAgents.DfsSubAgentDepth` | pkg/agent/config.go:1267-1288 | Succeeds exactly when the agent has at most the remaining number of levels and no empty entry below it; a success restores the shared path set; an error names a walk that justifies it. Terminates on every graph, cyclic or not. |
| `SubAgents.ValidateSubAgentRegistry` | pkg/agent/config.go:1150-1188 | Accepts exactly the registries whose direct children are present, named apart from the root, with distinct tool names, and from which no walk visits more than the limit of agents or reaches an empty entry; a graph error is justified by a walk. |
| `SubAgents.AcceptsMeans` | pkg/agent/config.go:1150-1188 | Acceptance outright, for every configured depth: each child is present, not named like the root, with a letter or digit in its name and alphanumeric runs of its own; and no walk from a child visits more agents than configured, two if nothing positive is, or reaches an empty entry. |
| `SubAgents.CheckChildren` | pkg/agent/config.go:1159-1180 | The checking loop accepts exactly lists of proper children with distinct tool names. |
| `SubAgents.FineIffShortWalks` | pkg/agent/config.go:1267-1288 | On any graph the depth-bounded recursive check agrees with the statement about all walks. |
| `SubAgents.CyclesAreNeverFine` | pkg/agent/config.go:1267-1288 | An agent on a cycle passes at no depth. |
| `SubAgents.BackEdgeIsNotFine` | pkg/agent/config.go:1267-1288 | An edge back into the current walk already means the check fails. |
| `SubAgents.ValidateToolNames` | pkg/agent/config.go:1291-1305 | Accepts exactly lists without a repeated name. |
| `SubAgents.ResolveSubAgentTools` | pkg/agent/config.go:1250-1265 | The delegation tools are those of the listed sub-agents with valid names, in order. |
| `SubAgents.ResolveTools` | pkg/agent/config.go:1193-1235 | Succeeds exactly when no source fails, no tool name repeats and the graph is accepted; the list is the sources in order. |
| `SubAgents.AcceptedHaveTools` | pkg/agent/config.go:1250-1265 | An accepted agent has exactly one delegation tool per sub-agent, in order, named by the sub-agent's alphanumeric runs. |
| `SubAgents.ResolveSubAgentSpecs` | pkg/agent/agent.go:458-506 | On an unchanged validated graph the unguarded recursion ends; it succeeds exactly when every agent below resolves, and then returns the unfolding with nothing skipped. |
| `SubAgents.PrepareRun` | pkg/agent/agent.go:173-196 | The pre-flight of a run succeeds exactly when tools and all sub-agents resolve, and yields the merged tools and the spec tree. |
| `SubAgents.AllResolveIffReachedResolve` | pkg/agent/agent.go:458-506 | Everything below resolves exactly when every agent that a walk from a child reaches resolves its own tools. |
| `SubAgents.PreparesIffReachedResolve` | pkg/agent/agent.go:173-196 | So the pre-flight succeeds exactly when the agent and every agent a walk from it reaches resolve their own tools and have an accepted registry. |
| `SubAgents.ValidatedChildrenAreDelegable` | pkg/agent/agent.go:476-488 | Because each child was validated before its children are visited, no entry below it is skipped and its levels go down. |
| `SubAgents.TreeUnfoldsGraph` | pkg/agent/agent.go:458-506 | Following child positions through the tree and through the registries succeeds together, ends at the same agent with its name, tool name, tools and children, and never goes deeper than the limit. |
| `SubAgents.TreeHasDistinctSiblings` | pkg/agent/agent.go:458-506 | No two siblings anywhere in the spec tree share a tool name. |
| `A2AExecutor.Execute` | pkg/agent/a2a_server.go:439-528 | For every agent, stream and consumer the executor yields exactly the full output up to where the consumer stops, and never yields after a no. |
| `A2AExecutor.AnswerWithoutStreaming` | pkg/agent/a2a_server.go:456-469 | An agent that does not stream answers once whatever the consumer: the text of its run if it delivered, otherwise a Failed status with the run's error. |
| `A2AExecutor.Forward` | pkg/agent/a2a_server.go:496-526 | The loop over the event channel yields artifact updates for the non-empty deltas before the first ending event, then the ending, cut by the consumer; only the first minted artifact id is used. |
| `A2AExecutor.CutIsUnique` | pkg/agent/a2a_server.go:440-526 | A full output and a consumer determine what is yielded. |
| `A2AExecutor.OutputFollowsLifeCycle` | pkg/agent/a2a_server.go:472-526 | Whatever is yielded is a run of the task life cycle: Submitted, Working, one artifact created and then only appended to, one final state; final exactly when nothing was cut off; Failed exactly when the stream could not be opened or its first ending event is an error. |
| `A2AExecutor.FinalStatusTells` | pkg/agent/a2a_server.go:472-526 | The final status carries the error of the stream that was not opened, or the message of the first ending event if that is an error; otherwise it is Completed without a message. |
| `A2AExecutor.UpdatesAreDeltas` | pkg/agent/a2a_server.go:497-514 | The artifact updates are the non-empty deltas before the first ending event, each once and in order: the first creates the artifact, the others append to it. |
| `A2AExecutor.ArtifactTextIsStreamedText` | pkg/agent/a2a_server.go:497-514 | A client that never stops assembles exactly the text streamed before the first ending event; one that stops has a prefix of it. |
| `A2AExecutor.ProgressGrows` | pkg/agent/a2a_server.go:496-524 | Output before the end only grows with the stream and depends on no event at or after the first ending one. |
| `A2AExecutor.BeforeEndStopsAtFirstEnd` | pkg/agent/a2a_server.go:515-522 | The forwarded events are a prefix free of ending events that stops at the first one. |
| `A2AExecutor.CollectMessageText` | pkg/agent/a2a_server.go:548-567 | Returns the non-empty texts in order with one newline between them; missing and empty parts add nothing. |
| `A2AExecutor.TextsAreParts` | pkg/agent/a2a_server.go:548-567 | The texts collected are those of the parts that are there and not empty, each once and in order. |
| `A2AExecutor.LinesOfJoined` | pkg/agent/a2a_server.go:548-567 | When no text has a newline of its own, splitting the collected text at newlines gives the texts back. |
| `StringOrder.SortedIsUnique` | pkg/agent/mcp.go:137 | A sorted list is determined by its elements, so sorting gives a canonical form. |
| `StringOrder.SortedOfIsInjective` | pkg/agent/mcp.go:153-160 | Equal sorted lists come from equal elements, counted. |
| `StringOrder.SortStrings` | pkg/agent/mcp.go:137 | The library sort: the one sorted list of the elements. |
| `Digests.TableIsInjective` | pkg/agent/mcp.go:133-138 | A table of rows by sorted key determines the map and does not depend on iteration order. |
| `Digests.SortedTrimmedKeys` | pkg/agent/mcp.go:178-184 | Keys visited in any order, trimmed, without empty ones, come out as one sorted list. |
| `Digests.TrimmedAllTakes` | pkg/agent/mcp.go:179-183 | The multiset of trimmed keys does not depend on the order keys are taken in. |
| `Digests.TrimmedAllCounts` | pkg/agent/mcp.go:178-184 | A trimmed key is there as often as there are keys that trim to it, and the empty text never. |
| `Digests.InputsAgreeIff` | pkg/agent/mcp.go:128-236 | Digest inputs are equal exactly when the rows are equal and the extra names are equal up to order. |
| `Digests.ExtraClientNames` | pkg/agent/mcp.go:239-251 | The sorted, trimmed, non-empty names of the clients that are not nil. |
| `Digests.NamesAreClients` | pkg/agent/mcp.go:239-251 | One trimmed name for each client that is not nil and not blank, in order. |
| `Fingerprints.McpConfigInput` | pkg/agent/mcp.go:128-236 | Built by loops over maps in any order, the MCP digest input is one function of the configuration. |
| `Fingerprints.MakeTransportRow` | pkg/agent/mcp.go:161-224 | The row of a transport, with its auth label from validation, OAuth fields, token presence, and sorted key lists. |
| `Fingerprints.HttpRowTells` | pkg/agent/mcp.go:171-217 | What an HTTP row shows: trimmed addresses, whether there is a token and a secret, and scopes and trimmed header and endpoint keys, each sorted and none lost. |
| `Fingerprints.McpInputsAgreeIffAlike` | pkg/agent/mcp.go:128-236 | Two MCP configurations get equal inputs exactly when the extra clients are the same up to order and, key by key, filter lists agree up to order, timeouts and retries are equal or each zero or the default, and the transports lead to the same place. |
| `Fingerprints.TransportRowsAgreeIff` | pkg/agent/mcp.go:161-224 | Two transports have the same row exactly when command, arguments and environment keys, or trimmed URL, auth label, token and secret presence, token URL, scopes up to order, endpoint and header keys agree. |
| `Fingerprints.AuthLabelTells` | pkg/agent/mcp.go:184-193 | What the auth label tells: OAuth settings count when any is given, and then need an id, a secret and a token URL and exclude a bearer token; a blank URL or anything else is invalid. |
| `Fingerprints.TlsFlagIsNotShown` | pkg/agent/mcp.go:161-224 | Two HTTP transports that differ only in TLS verification have one row. |
| `Fingerprints.EqualMcpInputsActAlike` | pkg/agent/mcp.go:128-236 | Equal MCP inputs imply the same server keys, the same filter result on every tool list, timeouts and retries that are equal unless each is zero or the default, and the same command or address with the same kind of credentials. |
| `Fingerprints.A2aConfigInput` | pkg/agent/a2a.go:180-239 | Built by loops over maps in any order, the A2A digest input is one function of the configuration. |
| `Fingerprints.A2aRowTells` | pkg/agent/a2a.go:193-228 | What an A2A row shows: trimmed URL, whether there is a token, the TLS setting, the timeout with zero as 30 seconds, and sorted trimmed header keys and filter lists, none lost. |
| `Fingerprints.A2aInputsAgreeIff` | pkg/agent/a2a.go:180-239 | Equal A2A inputs mean, key by key, the same lists up to order, trimmed URL, token presence, trimmed header keys, effective timeout and TLS setting, and conversely. |
| `Fingerprints.EqualA2aInputsFilterAlike` | pkg/agent/a2a.go:218-225 | Equal A2A inputs imply the same filter result on every skill list under every key. |
| `Fingerprints.NamedLlmInput` | pkg/agent/config.go:1600-1624 | The LLM digest input, by sorted name. |
| `Fingerprints.LlmInputsAgreeIff` | pkg/agent/config.go:1600-1624 | Equal LLM inputs mean the same names with the same model and provider; a nil client cannot be told from one with neither. |
| `Fingerprints.HookInputsAgreeIff` | pkg/agent/config.go:1575-1590 | Equal hook inputs mean the same group names up to order. |
| `Filters.Apply` | internal/types/mcp.go:37-65 | Returns the specs at exactly the positions where, with an allow list, some allowed id reads like the spec's, and without one, no blocked id does; in order. With trimming it is the A2A skill filter. |
| `Filters.PassingKeepsCounts` | internal/types/mcp.go:37-65 | A spec is kept exactly when it was given and passes, and as often as it was given. |
| `Filters.SameListsSamePassing` | internal/types/a2a.go:56-83 | A filter's result does not depend on the order of its lists. |
| `Policies.AllowlistToolApprovalPolicy` | pkg/agent/policy.go:69-93 | Fails exactly on a sub-agent name without a tool name; otherwise the list is the trimmed, non-empty expansion, whatever the map order. |
| `Policies.ExpansionMeans` | pkg/agent/policy.go:69-93 | A name is on the list exactly when it is a trimmed tool name, the delegation tool name of a sub-agent, or the MCP tool name of a trimmed server and tool. |
| `Policies.ToolPolicyFingerprint` | pkg/agent/policy.go:13-34 | The fingerprint text of each kind of policy, allowlist names sorted and joined by commas. |
| `Policies.FingerprintTellsKinds` | pkg/agent/policy.go:13-34 | Different kinds of policy never share a fingerprint, custom ones only with the same type name. |
| `Policies.EqualFingerprintsApproveAlike` | pkg/agent/policy.go:13-34 | Among require-all, auto and comma-free allowlists equal fingerprints mean the same approvals: require-all lets no tool through, auto every tool, an allowlist its own. |
| `Policies.CommaFreeListsAreToldApart` | pkg/agent/policy.go:25-31 | Comma-free allowlists with the same fingerprint are the same list. |
| `Policies.SameFingerprintSameApprovalsIff` | pkg/agent/policy.go:99-101 | Given a comma-free allowlist, another with the same fingerprint approves the same tools exactly when it is comma-free too. |
| `Policies.FingerprintIsSharedIff` | pkg/agent/policy.go:25-31 | Some other allowlist has the same fingerprint exactly when the list has two names or more, or its only name reads as two names in order around a comma. |
| `Policies.CleanSetsCanBeBuilt` | pkg/agent/policy.go:69-93 | Every set of trimmed, non-empty names is an expansion the constructor can make. |
| `Policies.BuiltFingerprintIsSharedIff` | pkg/agent/policy.go:25-31 | So the same condition says when some allowlist the constructor builds collides with this one. |
| `Policies.CommaCollision` | pkg/agent/policy.go:25-31 | A concrete pair of allowlists with one fingerprint and different approvals. |
| `InmemMemory.InmemMemory.Store` | internal/testing/inmem_memory.go:35-69 | An upsert under the trimmed id or a minted one: everything replaced but the creation time; the stored maps are new objects; no other record changes. |
| `InmemMemory.InmemMemory.Load` | internal/testing/inmem_memory.go:72-120 | The answer is the filter, rank and take of the store's contents, and every map in it is a new object. |
| `InmemMemory.InmemMemory.Clear` | internal/testing/inmem_memory.go:123-136 | Removes exactly the records the scope matches, unless the guard stops it. |
| `InmemMemory.CallerWrites` | internal/testing/inmem_memory.go:165-206 | Writing through any map the store does not own leaves the store as it was. |
| `InmemMemory.CloneEntries` | internal/testing/inmem_memory.go:190-206 | Copies hold the same values in new map objects. |
| `MemoryStore.AnswerIsRanked` | internal/testing/inmem_memory.go:86-118 | An answer has at most the limit of entries, ten by default, newest first, each a different record of wanted scope and kind, not expired when it was visited, with the query in its text; its score is one for a query and the stored one for a listing. |
| `MemoryStore.EligibleMeans` | internal/testing/inmem_memory.go:86-111 | Which records may be returned, outright: not expired at the time read, in scope field by field, of a wanted kind, and with the query somewhere in the lower-cased text, a match scoring one against the minimum. |
| `MemoryStore.OmittedIsNotNewer` | internal/testing/inmem_memory.go:113-118 | If an eligible record is left out the answer is full and nothing in it is older. |
| `MemoryStore.ClearMeans` | internal/testing/inmem_memory.go:123-136 | What a Clear leaves, outright: everything when no field and no tag is given, otherwise exactly the records the scope does not match field by field, unchanged. |
| `MemoryStore.ClearedScopeIsEmpty` | internal/testing/inmem_memory.go:123-136 | After clearing a scope the guard lets through, retrieval within that or any narrower scope is empty. |
| `MemoryStore.ClearKeepsTheRest` | internal/testing/inmem_memory.go:123-136 | Records outside the scope stay, and retrievals that see only those answer as before. |
| `MemoryStore.ClearRemovesEverythingIff` | internal/testing/inmem_memory.go:125-135 | A Clear removes everything whatever is stored exactly when its scope passes the guard with no metadata. |
| `MemoryStore.ReservedTagClearsTheStore` | internal/testing/inmem_memory.go:123-136 | One input of the gap: the scope whose only tag is user_id clears the store of any record. |
| `MemoryStore.RecordIsLastStore` | internal/testing/inmem_memory.go:35-69 | For every history a record is there exactly when its last store has not been cleared since, holds what that store gave, and has the creation time of the store that began it. |
| `MemoryScopes.ScopeMetadata` | pkg/memory/config.go:169-187 | Unreserved tags overlaid by the non-empty fields, whatever the map order. |
| `MemoryScopes.ScopeMatches` | internal/testing/inmem_memory.go:138-147 | The loop decides the metadata comparison. |
| `MemoryScopes.MatchesIffFieldsMatch` | pkg/interfaces/memory.go:97 | Scope matching is the field-by-field AND of the documentation. |
| `MemoryScopes.MatchingIsAPreorder` | internal/testing/inmem_memory.go:138-147 | Scope matching is reflexive and transitive. |
| `MemoryScopes.MatchingBothWaysIffSameMeta` | internal/testing/inmem_memory.go:138-147 | Two scopes match each other exactly when their metadata is the same. |
| `MemoryScopes.GuardMissesIff` | internal/testing/inmem_memory.go:161-163 | The Clear guard lets a match-all scope through exactly when the fields are empty and there are tags, all of them reserved keys. |
| `Hooks.Run` | internal/hooks/llm.go:41-61 | The nested loops of every runner are a fold over the non-nil hooks of all groups in order that stops at the first error; the world, with the map objects hooks can write to, is part of what is folded. |
| `Hooks.RunsCompose` | internal/hooks/llm.go:36-61 | A list of groups followed by another runs the second where the first ended, or not at all after an error. |
| `Hooks.GroupOrder` | internal/hooks/llm.go:41-58 | Hooks run in registration order under their group's name and nil ones are left out; with composition this fixes the order of every list of groups. |
| `Hooks.HookIsHeard` | internal/hooks/llm.go:50-58 | After a hook that succeeded the runner goes on with what it takes from its output; after one that failed the run is over with that error. |
| `Hooks.ErrorIsFinal` | internal/hooks/tools.go:64-91 | After an error no later hook touches world or state. |
| `Hooks.FoldKeeps` | internal/hooks/memory.go:108-141 | What no hook run changes of world and state together stays as it was throughout. |
| `Hooks.StateKeeps` | internal/hooks/memory.go:122-136 | A part of the state that no output is taken into stays as it was, whatever hooks do to the world. |
| `Hooks.MergedRunsAlike` | internal/hooks/hooks.go:90-108 | For hooks that do not look at the group name, one merged group runs like the separate groups. |
| `HookPoints.RunBeforeMemoryLoad` | internal/hooks/memory.go:111-141 | The fold for memory loads; a successful result has the user, tenant and agent of the call and its tag object, whose contents are in the world returned. |
| `HookPoints.LoadScopeIsReadOnly` | internal/hooks/memory.go:122-129 | Every hook before a load, and the load, gets the user, tenant and agent of the call and the one tag object they all share. |
| `HookPoints.LoadHookIsHeard` | internal/hooks/memory.go:122-136 | The query, limit, minimum score and kinds a hook returns are what the next hook, or the load, gets. |
| `HookPoints.SharedMapIsSafeIff` | internal/hooks/memory.go:108-129 | At a point whose runner copies no map, a map object shown to the hooks reads the same at every hook and at the end for all hook groups exactly when it is nil; otherwise a hook that returns everything unchanged can change it. |
| `HookPoints.LoadScopeIsSafeIff` | internal/hooks/memory.go:108-129 | Whatever the hooks do every hook, and the load, finds the scope that was asked for: exactly when that scope has no tags. |
| `HookPoints.HookMovesTheLoad` | internal/hooks/memory.go:108-129 | A concrete hook whose output changes nothing moves a load from one project tag to another by writing to the tags it was shown. |
| `HookPoints.HookMovesTheStore` | internal/hooks/memory.go:173-201 | The same for a store: its hook returns record and id unchanged and the store is made in the other project. |
| `HookPoints.RunAfterMemoryLoad` | internal/hooks/memory.go:146-171 | The fold over the prompt context. |
| `HookPoints.LoadedHookIsHeard` | internal/hooks/memory.go:146-171 | The prompt context a hook returns is what the next hook, or the prompt, gets. |
| `HookPoints.LoadedCallIsReadOnly` | internal/hooks/memory.go:143-171 | Hooks after a load get the call itself: its fields and its tag object. |
| `HookPoints.LoadedScopeIsSafeIff` | internal/hooks/memory.go:143-171 | Whatever hooks after a load do, the scope they find stays exactly when it has no tags. |
| `HookPoints.RunBeforeMemoryStore` | internal/hooks/memory.go:176-201 | The fold for memory stores; a successful result has the user, tenant and agent of the call and its tag object. |
| `HookPoints.StoreScopeIsReadOnly` | internal/hooks/memory.go:173-201 | Every hook before a store, and the store, gets the user, tenant and agent of the call and its tag object. |
| `HookPoints.StoreHookIsHeard` | internal/hooks/memory.go:176-201 | The record and id a hook returns are what the next hook, or the store, gets. |
| `HookPoints.StoreScopeIsSafeIff` | internal/hooks/memory.go:173-201 | Whatever the hooks do every hook, and the store, finds the scope that was asked for: exactly when that scope has no tags. |
| `HookPoints.RunAfterMemoryStore` | internal/hooks/memory.go:205-227 | Hook outputs are ignored; the first error ends the run. |
| `HookPoints.StoredCallIsReadOnly` | internal/hooks/memory.go:205-227 | Every hook after a store gets the stored scope, record and id themselves, with their tag and metadata objects. |
| `HookPoints.StoredCallIsSafeIff` | internal/hooks/memory.go:205-227 | Whatever hooks after a store do, the scope and metadata they find stay exactly when there are neither tags nor metadata. |
| `HookPoints.RunBeforeTool` | internal/hooks/tools.go:68-91 | No hook runs for an ineligible kind; otherwise only the arguments can differ. |
| `HookPoints.ToolHookIsHeard` | internal/hooks/tools.go:81-90 | The arguments a hook returns, as they read then, are what the next hook, or the tool, gets. |
| `HookPoints.OnlyArgsChange` | internal/hooks/tools.go:68-91 | Every hook sees the call's id, name, display name and kind unchanged. |
| `HookPoints.LaterHooksGetNewArgs` | internal/hooks/tools.go:81-90 | From the second hook on, and in the call then made, the arguments are an object that was not on the caller's heap. |
| `HookPoints.OnlyTheFirstHookSharesArgs` | internal/hooks/tools.go:81-90 | Of hooks that write only to the arguments they are handed, none but the first can change anything on the caller's heap. |
| `HookPoints.RunAfterTool` | internal/hooks/tools.go:95-124 | Content and execution error follow the fold and are returned even after a hook error. |
| `HookPoints.ExecutedHookIsHeard` | internal/hooks/tools.go:110-123 | The content and execution error a hook returns are what the next hook, or the agent, gets. |
| `HookPoints.ExecutedCallIsReadOnly` | internal/hooks/tools.go:95-124 | Hooks after a tool get the call itself: id, name, kind and argument object. |
| `HookPoints.ExecutedArgsAreSafeIff` | internal/hooks/tools.go:95-124 | Whatever hooks after a tool do, the arguments they find stay exactly when there are none or the kind has no hooks. |
| `HookPoints.RunLLM` | internal/hooks/llm.go:41-87 | The fold over requests, and over responses: the two runners differ in nothing else. World and request are of any type, so a request whose parts are objects in the world, edited in place by hooks, is included. |
| `HookPoints.LLMHookIsHeard` | internal/hooks/llm.go:50-58 | The request or response a hook returns is what the next hook, or the model or agent, gets. |
| `HookPoints.RunBeforeRetrieve` | internal/hooks/retriever.go:57-82 | The fold for retrievals; only the query can differ. |
| `HookPoints.RetrieveHookIsHeard` | internal/hooks/retriever.go:57-82 | The query a hook returns is what the next hook, or the retriever, gets. |
| `HookPoints.OnlyQueryChanges` | internal/hooks/retriever.go:57-82 | Every hook sees mode and retriever unchanged. |
| `HookPoints.RunAfterRetrieve` | internal/hooks/retriever.go:88-114 | The fold over documents. |
| `HookPoints.RetrievedHookIsHeard` | internal/hooks/retriever.go:88-114 | The documents a hook returns are what the next hook, or the agent, gets. |
| `HookPoints.RetrievedCallIsReadOnly` | internal/hooks/retriever.go:88-114 | Hooks after a retrieval see the call unchanged. |
| `HookMerge.MergedHooks` | pkg/agent/config.go:743-749 | The concatenation of all groups in order, written to no array that existed before. |
| `HookMerge.Merge` | internal/hooks/hooks.go:90-108 | A lone merge writes the added hooks into the receiver's own array exactly when they fit its spare capacity. |
| `HookMerge.ConcatIsMerged` | pkg/agent/config.go:743-749 | The concatenated slices are the merged hooks the runners are compared on. |
| `Registries.Registry.Register` | pkg/agent/tool_registry.go:25-41 | Appends the entry under its trimmed name, or refuses a nil entry, an empty name or a name already there and changes nothing. |
| `Registries.Registry.Unregister` | pkg/agent/tool_registry.go:43-56 | Removes exactly that entry and keeps the order of the others, or refuses and changes nothing. |
| `Registries.Registry.Get` | pkg/agent/tool_registry.go:58-70 | The entry of the trimmed name, or why there is none. |
| `Registries.Registry.List` | pkg/agent/subagent_registry.go:70-80 | The entries in insertion order, in a new array. |
| `Registries.RemoveFromOrder` | pkg/agent/tool_registry.go:85-92 | The in-place splice removes the first occurrence of the name. |
| `Registries.ListThenApply` | pkg/agent/subagent_registry.go:70-80 | A returned list shows the registry as it was when taken, through any later registrations and removals, while the registry itself follows them. |
| `Registries.EntriesRemove` | pkg/agent/tool_registry.go:43-56 | Removing one entry keeps map and order slice duplicate-free and in step. |
| `Names.ToolNameIsJoinedRuns` | pkg/agent/subagent.go:57-67 | The tool name is the prefix and the alphanumeric runs joined by single underscores; it fails exactly when there are no runs. |
| `Names.ToolNameIffAlnum` | pkg/agent/subagent.go:57-67 | A name has a tool name exactly when some character of it is an ASCII letter or digit. |
| `Names.ToolNameCharacters` | pkg/agent/subagent.go:57-67 | A tool name is the prefix and then only ASCII letters, digits and underscores, with a letter or digit at both ends. |
| `Names.ToolNamesAgreeIff` | pkg/agent/subagent.go:57-67 | Two names get the same tool name exactly when they have the same sequence of alphanumeric runs. |
| `Names.ToolNameIdempotent` | pkg/agent/subagent.go:57-67 | Normalising the body of a tool name changes nothing. |
| `Names.SanitizeName` | pkg/agent/config.go:1326-1349 | The sanitiser's loop writes the kept characters up to the length limit. |
| `Names.KeptCharacter` | pkg/agent/config.go:1326-1349 | Wherever it stands a blank becomes a hyphen, a lower-case letter, digit, hyphen or underscore stays, and any other character goes. |
| `Names.ValidateAgentName` | pkg/agent/config.go:1352-1369 | Accepts exactly non-empty names of letters, digits, hyphens and underscores up to the limit. |
| `Names.SanitizedIsValidAndStable` | pkg/agent/config.go:1326-1369 | A sanitised name is empty or valid, and sanitising it again changes nothing. |
| `Names.RetrieverNameRoundTrip` | internal/types/retriever.go:42-62 | A retriever's tool name is the prefix and its trimmed name; extracting gives the trimmed name back, and fails exactly when that is empty. |
| `Benchmarks.PercentileIsBounded` | benchmarks/metrics.go:47-62 | A percentile lies between the two samples around its rank, so between the smallest and the largest. |
| `Benchmarks.PercentileIsMonotone` | benchmarks/metrics.go:47-62 | Percentiles grow with the percentage. |
| `Benchmarks.PercentileOfEquallySpaced` | benchmarks/metrics.go:47-62 | Among equally spaced samples the percentile is exactly linear in the percentage, from the smallest sample at 0 to the largest at 100. |
| `Benchmarks.AggregateMetrics` | benchmarks/metrics.go:9-45 | The metrics of the outcomes, from latencies sorted once. |
| `Benchmarks.SuccessRateTells` | benchmarks/metrics.go:9-45 | The success rate is 100 exactly when every run succeeded, 0 exactly when none did, and grows with the number that did. |
| `Benchmarks.AverageTells` | benchmarks/metrics.go:64-73 | The average times the number of latencies is their sum. |
| `Benchmarks.CountersAddUp` | benchmarks/metrics.go:9-45 | Recalls, stores and runs add up over the parts of a benchmark, and a single run counts its own. |
| `Benchmarks.MetricsIgnoreOrder` | benchmarks/metrics.go:9-45 | The metrics do not depend on the order in which runs finished, and P50 <= P95 <= P99. |
| `Benchmarks.RunBenchmark` | benchmarks/runner.go:50-81 | For every completion order the outcomes are exactly those of the runs made, the configured number of them; each batch runs different pool entries, and every batch but the last is full. |
| `Telemetry.ToolTelemetry.Record` | internal/types/telemetry.go:73-94 | All counters and breakdowns follow the history of calls. |
| `Telemetry.BreakdownsAddUp` | internal/types/telemetry.go:73-94 | Breakdown values add up to the calls, and failed breakdown values to the failures, that had a name. |
| `Telemetry.TimesCount` | internal/types/telemetry.go:73-94 | What the counters count: the calls of a name, those of them that failed, all failures, and the calls and failures that had a name. |
| `Telemetry.FailedAtMostCalled` | internal/types/telemetry.go:73-94 | Failures never exceed calls, in total and for each tool. |

## Left out

- The local, Temporal and Restate runtimes, budgets, the circuit breaker, and the LLM, MCP and A2A clients: outside the code modelled here; a runtime handle appears only by its contract.
- HTTP serving, bearer authentication, logging, tracing, metrics export and configuration loading: input and output, or long records with easy claims.
- JSON encoding and SHA-256: a digest input stands for its digest, and strings are assumed valid UTF-8.
- Event bus payload sharing: a payload is a value, so that all subscribers of one publish receive the same copied byte slice is not modelled.
- Publish of the event bus, GetAgentRun, GetAgentStream and the waiters as methods: they are steps of a machine, because what other goroutines do between their actions is the point.
- Run and Stream preparation other than tools and sub-agents (conversation ids, approval handlers, budgets): easy checks.
- SubAgents.ResolveTools: the outcomes of native, MCP, A2A, memory and retriever resolution are given, and the graph does not change during a call.
- A2AExecutor.Execute: an event channel is the finite list of events up to its closing; for a channel that is still open, `ProgressGrows` covers what has been yielded so far. Cancel, a single yield, is not modelled.
- A2AExecutor.CollectMessageText: a part is its text or missing; file and data parts have no text.
- Names.SanitizedIsValidAndStable: Unicode lower-casing is any function that leaves lower-case letters, digits, hyphens and underscores alone.
- InmemMemory.InmemMemory.Store: the minted id and the clock reading are parameters; that random ids never collide is not claimed.
- InmemMemory.CloneMap: metadata is copied key by key, where the code round-trips it through JSON.
- Hooks.Run: the values in a map object are strings, and nothing is said about which parts of a model request or response hooks leave alone, since nothing is promised.
- HookPoints.OnlyTheFirstHookSharesArgs: a hook that keeps the caller's argument object aside for a later hook to write to is not covered; values nested in the arguments are not objects of their own.
- HookMerge.MergedHooks: one hook point; the others have element types of their own and so arrays of their own.
- Registries.Registry.Register: the lock is not modelled; each method is one critical section.
- Fingerprints.MakeTransportRow: a transport of an unknown type has no contents.
- Policies.ToolPolicyFingerprint: a custom policy is its type name, and nothing is said about its approvals.
- Benchmarks.AggregateMetrics: floats are reals, counters are unbounded integers, and CPU, heap and token figures are left out.
- Telemetry.ToolTelemetry.Record: counters are unbounded, where the code has 64 bits.
- TTL policy, kind resolution and store defaults of the memory configuration: branch-only code with pointwise claims.
- Tool display names, schemas and card building: formatting.
