# oxenClaw: a verified model of its protocols and transformations

oxenClaw is a chat-agent gateway. Most of it is input and output; this project
models the parts whose correctness is a matter of interleavings and invariants,
and proves what they keep. `dafny verify dfyconfig.toml` checks everything.

The modules, in the system's own terms:

- **ACP wire.** `AcpServer` runs each inbound JSON-RPC request as its own task over
  one sink; `AcpClient` correlates responses by id and routes updates to session
  queues; `ClientTurn` is the generator that merges queue and response into one
  event stream; `AcpEvents` holds the two event projections and `Framing` the
  newline-delimited byte stream. `EndToEnd` joins the way back: it shows that a
  prompt's consumer sees exactly the backend's events, under every schedule, and that
  the prompt finishes; `RoundTrip` adds the way there, so that both hold from the call
  on. `StaleReads` shows what cancelled consumers do to the later turns of a session. Requests, responses and errors are those of sections 4 and 5 of
  the JSON-RPC 2.0 specification.
- **Lanes and dispatcher.** `Lanes` is the optional global semaphore followed by a
  per-(agent, session) lock; `Dispatch` the agent choice, the turn, and the session
  histories that lanes protect.
- **Approvals.** `Approvals` is the registry of one-shot futures raced by resolve,
  cancel, shutdown, timeout and task cancellation, and the tools that wait on it.
- **Host pins.** `PinCache` is the least-recently-used cache of validated address
  sets whose lookup and commit are separate lock sections.
- **Transcript.** `Transcript` is the in-place repair and merge of message lists.
- **Scanners, printers, assemblers.** `PseudoTool` (brace scanner and schema
  matcher), `EnvFile` (environment file printer and parser) and `SseAssembly`
  (streamed completion deltas).
- **Bus and watcher.** `CanvasBus` (bounded fan-out and evaluation futures) and
  `ReconnectWatcher` (retry ladder).

How the models are built: code between two awaits (or inside one lock section) is one
step of a state machine, and theorems speak about every run of the machine. Objects
that the source updates in place are classes whose methods are proved equal to the
machine's steps; loops are loops, proved against the functions that the lemmas are about.

Assumptions, stated once:

- asyncio locks, semaphores and queues are first-in first-out, with the waiter
  bookkeeping of Python 3.11 (a released lock stays free until its first waiter
  resumes; a released permit is handed to the first waiter). `asyncio.wait_for`
  awaits the future itself, as it does from Python 3.12 on, and a timeout fires only
  on an open future.
- Fresh ids (uuid) never collide, so requests and futures are named by their order.
- An `asyncio.StreamReader` made without a limit refuses a line whose bytes before the
  newline exceed 64 KiB, the default of the asyncio streams.
- JSON is an abstract codec: the messages in question are dumped as one line each that
  loads back as the message (`Framing.Dumped`), and a message cut short does not load
  (`Framing.CutFails`). `Framing.CodecsExist` shows that this can be met.
- Python's `int` on strings is any partial function (`AcpClient.IntParser`); on JSON numbers
  it truncates, and raises on what is not finite.
- What an agent or backend produces is any finite sequence of events that may end,
  raise, or stop with a terminal event; probes, name resolutions, sends and clocks
  are inputs of the steps that consult them. The watcher's clock never goes back,
  although the source reads the wall clock.
- Python's `isalpha` and `isalnum` are any predicates disjoint from blanks and from
  the file's punctuation (`EnvFile.Sane`); finite floats in usage totals are real
  numbers, and one that is not finite absorbs what is added to it.

Where the code and its own documentation or an obvious expectation differ, the model
follows the code; each case has its exact condition and a concrete input:

- A peer that closes in the middle of a line: oxenclaw/acp/framing.py:19 promises a
  clean end, but the partial line reaches the JSON error at lines 67-70
  (`Framing.TruncatedStream`, `Framing.CutMessageExample`).
- A message between 64 KiB and the 4 MiB of `max_line_bytes` is over the line limit of the
  stream readers on both real pipes: it raises a `ValueError` and not the framing error,
  which those pipes never give for a long line (`Framing.CapMattersExactly`,
  `Framing.LongMessageCrashes`).
- A malformed error object in a response, or one whose code `int` cannot convert, takes the
  future out of `_pending` and then crashes the reader, so the waiter is never completed
  (`AcpClient.OrphanedExactly`, `AcpClient.OrphanExample`).
- A consumer cancelled while its turn waits leaves a read on the session's queue, which
  takes an update of a later turn (`StaleReads.SessionSafeExactly`,
  `StaleReads.NextTurnSafeExactly`, `StaleReads.StaleReadLosesUpdate`).
- Updates under foreign tags lose their text, and non-text events under chunk tags are
  dropped, between the two projections (`AcpEvents.TextSurvives`,
  `AcpEvents.RelayDropsExactly`, `AcpEvents.ForeignTagExample`,
  `AcpEvents.ChunkTagExample`).
- `resolve_or_pin` documents an error for any new address that fails the policy; the
  code strips such addresses, and refuses a rebind when addresses survive but none of
  them is pinned, even if all of them pass (`PinCache.FailsExactly`,
  `PinCache.BlockedNewcomerExample`, `PinCache.AllowedNewcomerExample`).
- A request whose task is cancelled during its first event emit stays pending for ever
  (`Approvals.PendingMeansWaiting`, `Approvals.LeakIsForever`, `Approvals.LeakExample`).
- A usage value that is not a number followed by one that is makes the merge raise
  (`Transcript.MergeRaisesExactly`, `Transcript.NullThenNumberRaises`); the caller then
  keeps the unmerged list.
- A key made of underscores only is written by `persist_env_var` but ignored by the
  parser, and a value with a line break never reads back
  (`EnvFile.PersistRoundTripsExactly`, `EnvFile.UnderscoreKeyIsLost`,
  `EnvFile.TwoLineValueIsLost`).

## Model

| member | source | states |
|---|---|---|
| `Lanes.LaneSafety` | oxenclaw/agents/lanes.py:150-207 | In every reachable state at most one turn of a lane runs, turns of a lane start in arrival order, `_in_flight_count` is the number of running turns, free plus granted plus held permits equal the cap, and `stats` never reports fewer free permits than there are; exceptions and cancellation at any await included |
| `Lanes.NoDeadlock` | oxenclaw/agents/lanes.py:181-189 | While any task is unfinished, some resumption or some running turn's return is possible; produces that step |
| `Lanes.StepLowersRank` | oxenclaw/agents/lanes.py:164-189 | Every step other than an arrival strictly lowers a ranking over queued, permitted and running tasks |
| `Lanes.LanesDrain` | oxenclaw/agents/lanes.py:164-189 | Once callers stop arriving every schedule is finite, and one that can go no further has finished every task |
| `Lanes.StepExtends` | oxenclaw/agents/lanes.py:150-189 | No step renumbers an arrival or reorders a start, and it starts at most one turn |
| `Lanes.EndedForGood` | oxenclaw/agents/lanes.py:150-189 | Over any run an ended task stays ended, and no arrival or start is forgotten or reordered |
| `Lanes.LaneRegistry.constructor` | oxenclaw/agents/lanes.py:68-91 | A missing or non-positive cap means no semaphore; otherwise all permits are free |
| `Lanes.LaneRegistry.Enter` | oxenclaw/agents/lanes.py:164-189 | A caller of `run` up to its first suspension, whole new state |
| `Lanes.LaneRegistry.ResumeAfterGate` | oxenclaw/agents/lanes.py:183-184 | The first granted waiter of the semaphore takes or queues for its lane lock |
| `Lanes.LaneRegistry.ResumeAfterLock` | oxenclaw/agents/lanes.py:174-186 | The first waiter of a free lane lock starts its turn |
| `Lanes.LaneRegistry.Leave` | oxenclaw/agents/lanes.py:175-189 | A turn that ends gives back counter, lock and permit, in that order, and the permit goes to the first waiter |
| `Lanes.LaneRegistry.Abandon` | oxenclaw/agents/lanes.py:174-184 | Cancellation while waiting gives back exactly what the task held |
| `Lanes.LaneRegistry.Available` | oxenclaw/agents/lanes.py:191-207 | Reported free permits are never below the semaphore's own |
| `Dispatch.ResolveMeaning` | oxenclaw/agents/dispatch.py:208-246 | Which agent is chosen, as an if-and-only-if: pinned and registered, else first admitting in declaration order, else the only registered one when nobody routes the channel |
| `Dispatch.ResolveAgentId` | oxenclaw/agents/dispatch.py:208-246 | The one-pass loop with its `sender_blocked` flag computes that choice |
| `Dispatch.Dispatcher.Emit` | oxenclaw/agents/dispatch.py:170-190 | The turn loop appends every yielded outbound before sending it, keeps results and warnings in order, and stops at the first send that raises |
| `Dispatch.Dispatcher.DispatchLocked` | oxenclaw/agents/dispatch.py:126-206 | A dropped envelope leaves all histories alone; a routed one appends its block (a prefix when something raises) to its own session only; results and warnings together count the yielded outbounds |
| `Dispatch.EveryOutboundAccounted` | oxenclaw/agents/dispatch.py:167-206 | Without an escaping exception every outbound is either delivered or warned about |
| `Dispatch.HistoryIsBlocks` | oxenclaw/agents/dispatch.py:94-170 | However many dispatches overlap, fail or are cancelled, a session's history is the concatenation of its lane's blocks in start order, which is arrival order, and only the last block belongs to an unfinished turn |
| `Dispatch.HistoryOnlyGrows` | oxenclaw/agents/dispatch.py:141-170 | No step of any session rewrites what a session already holds |
| `AcpEvents.RelayDropsExactly` | oxenclaw/acp/server.py:293-323 | Server projection followed by client projection drops an event if and only if it is terminal or is a non-text event under a chunk tag; the tag survives |
| `AcpEvents.TextSurvives` | oxenclaw/acp/subprocess_runtime.py:428-462 | A text delta keeps text and stream if and only if its wire tag is a chunk tag; what it becomes otherwise |
| `AcpEvents.ForeignTagExample` | oxenclaw/acp/subprocess_runtime.py:460-462 | A text delta tagged as a plan arrives as an empty note |
| `AcpEvents.ChunkTagExample` | oxenclaw/acp/subprocess_runtime.py:440-445 | A status tagged as a message chunk does not arrive |
| `AcpEvents.ToolCallSurvives` | oxenclaw/acp/subprocess_runtime.py:452-459 | A tool call under a call tag keeps id, status and title |
| `AcpEvents.StatusSurvives` | oxenclaw/acp/subprocess_runtime.py:460-462 | A status keeps its text unless it carries a chunk or call tag |
| `AcpServer.RepliesMatchRequests` | oxenclaw/acp/server.py:98-147 | When all tasks are finished each non-null id has exactly as many replies as messages were dispatched with it, and null has none; a message without an id never causes output; a task writes nothing after its reply, so a prompt's notifications precede its response |
| `AcpServer.ServeReturns` | oxenclaw/acp/server.py:98-119 | After the input ends only boundedly many steps remain, and when none is left every dispatched id has its replies |
| `AcpServer.SessionIdsDistinct` | oxenclaw/acp/server.py:285-291 | Minted session ids are pairwise distinct and registered, although session keys use the same counter |
| `AcpServer.MintedIdsDiffer` | oxenclaw/acp/server.py:285-287 | The padded decimal format is injective on counter values |
| `AcpServer.AcpServer.HandleEvent` | oxenclaw/acp/server.py:229-248 | One round: the notification, then at most one stop reply |
| `AcpServer.AcpServer.StreamTurn` | oxenclaw/acp/server.py:221-253 | The whole prompt loop writes the specified messages, wherever the cancel event becomes set |
| `AcpServer.AcpServer.HandlePrompt` | oxenclaw/acp/server.py:204-253 | Bad parameters and unknown sessions get one invalid-params error and change nothing; otherwise the cancel event is cleared and the turn's messages follow |
| `AcpServer.AcpServer.HandleNewSession` | oxenclaw/acp/server.py:171-202 | Counter use, session registration and the single reply on both outcomes of `ensure_session` |
| `AcpServer.AcpServer.MintSessionId` | oxenclaw/acp/server.py:285-287 | Advances the counter by one and formats it |
| `AcpClient.RunKeepsFutures` | oxenclaw/acp/subprocess_runtime.py:381-485 | Over any run future `r` belongs to request id `r + 1`, is pending under that id only, is frozen once completed, and an id that left `_pending` never returns |
| `AcpClient.IdsNeverReused` | oxenclaw/acp/subprocess_runtime.py:472-474 | Request ids are distinct over any run, closes and restarts included |
| `AcpClient.OnlyItsResponseCompletes` | oxenclaw/acp/subprocess_runtime.py:381-402 | A message can complete only the open future allocated for its id, with the verdict it carries; the other causes are EOF, `aclose` and the waiter's cancellation |
| `AcpClient.UnknownResponseIgnored` | oxenclaw/acp/subprocess_runtime.py:384-390 | A response to an id that is not pending changes nothing at all |
| `AcpClient.RepeatedResponseIgnored` | oxenclaw/acp/subprocess_runtime.py:388-390 | After a response to an id, every later response to it changes nothing, whatever ran in between |
| `AcpClient.ResponseCompletesExactly` | oxenclaw/acp/subprocess_runtime.py:388-402 | A response to a pending open future takes its id out of `_pending`, and completes the future if and only if its error is falsy or an object whose code, if given, converts to int |
| `AcpClient.OrphanedExactly` | oxenclaw/acp/subprocess_runtime.py:381-402 | After such a response and any later run in which the waiter is not cancelled, the future is still open if and only if the error was unreadable |
| `AcpClient.OrphanExample` | oxenclaw/acp/subprocess_runtime.py:391-400 | One request answered with the error `"boom"`, or with the code `1e400`, stays open even after EOF and `aclose` |
| `AcpClient.OrphanStaysOpen` | oxenclaw/acp/subprocess_runtime.py:347-363 | An open future whose id has left `_pending` stays open in every later run unless its waiter is cancelled |
| `AcpClient.SubprocessAcpRuntime.NewRequest` | oxenclaw/acp/subprocess_runtime.py:472-480 | The new id differs from every id ever allocated |
| `AcpClient.SubprocessAcpRuntime.ReadVerdict` | oxenclaw/acp/subprocess_runtime.py:391-402 | What a response body makes of its future, or that reading it raises |
| `AcpClient.SubprocessAcpRuntime.OnResponse` | oxenclaw/acp/subprocess_runtime.py:382-402 | The response branch of the dispatcher, whole new state and whether it crashed |
| `AcpClient.SubprocessAcpRuntime.OnUpdate` | oxenclaw/acp/subprocess_runtime.py:415-426 | Routes one projected event to the queue of its session id, or changes nothing |
| `AcpClient.SubprocessAcpRuntime.OnMessage` | oxenclaw/acp/subprocess_runtime.py:381-413 | The three-way dispatch of an incoming message |
| `AcpClient.SubprocessAcpRuntime.FailAll` | oxenclaw/acp/subprocess_runtime.py:356-359 | Completes every open pending future with the closed error and no other |
| `AcpClient.SubprocessAcpRuntime.SignalAll` | oxenclaw/acp/subprocess_runtime.py:360-363 | One sentinel for each session still registered under a key |
| `AcpClient.SubprocessAcpRuntime.OnStdoutClosed` | oxenclaw/acp/subprocess_runtime.py:347-363 | The reader's `finally` |
| `AcpClient.SubprocessAcpRuntime.AcloseBackend` | oxenclaw/acp/subprocess_runtime.py:277-294 | Idempotent; fails and forgets all pending requests and signals all sessions |
| `AcpClient.SubprocessAcpRuntime.Close` | oxenclaw/acp/subprocess_runtime.py:261-273 | Unregisters one session under both names and signals its queue |
| `AcpClient.SubprocessAcpRuntime.DrainQueue` | oxenclaw/acp/subprocess_runtime.py:464-470 | Empties one queue and nothing else |
| `ClientTurn.TurnIsFaithful` | oxenclaw/acp/subprocess_runtime.py:162-250 | Under every interleaving of updates, responses, EOF, closes, reader crashes and other requests a turn yields updates in wire order without loss inside, then at most one terminal event, last; Done only after a response, and then every update enqueued before it was yielded |
| `EndToEnd.Transparency` | oxenclaw/acp/server.py:204-253 | One prompt in flight, intact pipe, no cancel: whatever the interleaving of all server tasks, pipe, reader, consumer and other client work, the consumer sees a prefix of the backend's events up to the first terminal one, each projected twice, and a turn is over exactly when it has seen all of them with the matching terminal event |
| `EndToEnd.PromptFinishes` | oxenclaw/acp/subprocess_runtime.py:162-250 | From any state of such a run only boundedly many steps remain, and when none is left the consumer has seen the whole expected stream |
| `EndToEnd.NoDeadlock` | oxenclaw/acp/subprocess_runtime.py:192-240 | While the turn is not over the server, the reader or the consumer can move; produces that step |
| `EndToEnd.OutputMeaning` | oxenclaw/acp/server.py:221-253 | The messages of a prompt, read by the client, stand for exactly the expected event stream |
| `EndToEnd.PromptStartsTurn` | oxenclaw/acp/subprocess_runtime.py:171-192 | The envelope the client sends passes the server's validation and starts the turn on its session |
| `EndToEnd.StartIsReachable` | oxenclaw/acp/server.py:171-223 | The hypotheses of these theorems can be met: the server by its own steps from the start, and the client by its own, reach them for any text and any behaviour of the backend |
| `EndToEnd.PipeOverBytes` | oxenclaw/acp/framing.py:43-86 | Framing server messages into bytes and reading them back is the identity if and only if each fits both limits of the reader |
| `RoundTrip.Transparency` | oxenclaw/acp/subprocess_runtime.py:185-250 | The same from the call on and through both pipes: the prompt is written while the send goes on, which may return at any later time, even after answers have arrived; our request queues behind those of other coroutines, the serve loop takes them in one by one, and under every interleaving the consumer sees a prefix of the expected stream, and all of it exactly when the turn is over |
| `RoundTrip.PromptIsServed` | oxenclaw/acp/server.py:98-111 | From any state of such a run only boundedly many steps remain, and when none is left the consumer has seen the whole expected stream |
| `RoundTrip.NoDeadlock` | oxenclaw/acp/server.py:98-111 | While the turn is not over the client can send, the serve loop can take in, or a task, the reader or the consumer can move |
| `RoundTrip.StartIsReachable` | oxenclaw/acp/subprocess_runtime.py:127-157 | For every prompt there is such a start, with the session known to both ends by steps of each |
| `StaleReads.LosesAtMost` | oxenclaw/acp/subprocess_runtime.py:192-240 | A turn begun with `g` queue reads left over from cancelled consumers loses at most `g` of its updates under every interleaving, and yields the others in order; none is lost when `g` is zero |
| `StaleReads.StaleReadLosesUpdate` | oxenclaw/acp/subprocess_runtime.py:195-199 | One left-over read is enough: for every client, update and result a run in which the turn ends normally without having yielded the only update that arrived for it |
| `StaleReads.NextTurnSafeExactly` | oxenclaw/acp/subprocess_runtime.py:249-250 | After a consumer is cancelled the next turn of its session can lose nothing if and only if the cancellation found no queue read under way |
| `StaleReads.SessionLosesAtMost` | oxenclaw/acp/subprocess_runtime.py:162-250 | A whole session of turns ended or cancelled anywhere: the reads left over are the cancellations that found one under way minus the items such reads took, all turns together lose at most one update for each of those, and nothing is lost while no cancellation found one |
| `StaleReads.SessionSafeExactly` | oxenclaw/acp/subprocess_runtime.py:192-250 | Whatever a session has been through, its next turn can lose nothing if and only if as many items were taken by left-over reads as cancellations left behind |
| `Framing.ReadsBackExactly` | oxenclaw/acp/framing.py:43-86 | Reading what was encoded gives the messages up to the first one over a limit, which raises what that limit raises; exactly the messages and a clean end if and only if all fit |
| `Framing.ReadThrough` | oxenclaw/acp/framing.py:43-75 | Whatever bytes follow, encoded messages are read first and in order |
| `Framing.BlankLinesSkipped` | oxenclaw/acp/framing.py:64-66 | Blank lines within the limits change nothing |
| `Framing.CapMattersExactly` | oxenclaw/acp/framing.py:57-63 | On a reader with a line limit of its own some line is refused because of `max_line_bytes` if and only if that is not above the reader's limit |
| `Framing.CapIsMoot` | oxenclaw/acp/framing.py:57-63 | Any two values of `max_line_bytes` above the reader's limit read every input alike |
| `Framing.LongMessageCrashes` | oxenclaw/acp/subprocess_runtime.py:327-334 | On the real pipes a message over 64 KiB ends the reading with another exception, although one up to 4 MiB is read where the reader has no limit |
| `Framing.TruncatedStream` | oxenclaw/acp/framing.py:57-70 | A peer that closes mid-message: earlier messages are read, the cut one only if just its newline is missing, otherwise the stream ends with an error |
| `Framing.CutMessageExample` | oxenclaw/acp/framing.py:67-70 | An empty object cut after its first byte ends the stream with an error, uncut without newline it is read |
| `Framing.CodecsExist` | oxenclaw/acp/framing.py:78-86 | For every list of messages some codec meets the assumptions made about those messages |
| `Framing.ReadMessages` | oxenclaw/acp/framing.py:43-75 | The read loop computes the specified messages and ending for all byte strings |
| `Approvals.GateIsSafe` | oxenclaw/approvals/tool_wrap.py:58-75 | In every interleaving a gated body runs only if a resolve with the token approved this call's own request, and nothing else won that request |
| `Approvals.OneWinner` | oxenclaw/approvals/manager.py:162-224 | Per request at most one of resolve, cancel, cancel_all, timeout and task cancellation wins, and the future shows the winner |
| `Approvals.WinsAreReported` | oxenclaw/approvals/manager.py:162-224 | Every completion of a future is reported as a success by the very call that made it (or is the timeout's or the cancelled task's own), and earlier ones stay |
| `Approvals.SuccessWins` | oxenclaw/approvals/manager.py:162-208 | A resolve or cancel that reports success is the winner: nobody had won the request before, and its win is the one recorded |
| `Approvals.ShutdownWinsItsCount` | oxenclaw/approvals/manager.py:210-224 | `cancel_all` returns exactly how many requests it won, none of them won before |
| `Approvals.ApprovalHasCause` | oxenclaw/approvals/manager.py:113-186 | An approval on record was made by a step of the run that carried the token and named the request |
| `Approvals.ShutdownLeavesNothingOpen` | oxenclaw/approvals/manager.py:210-224 | After `cancel_all` no pending future is open, completed ones are untouched, and the count is the number that were open |
| `Approvals.PendingMeansWaiting` | oxenclaw/approvals/manager.py:130-153 | The pending requests and the state file are exactly the calls still waiting if and only if no step of the run cancelled a task before the first event emit of its request had returned |
| `Approvals.LeaksExactly` | oxenclaw/approvals/manager.py:130-139 | A call has leaked its request if and only if the run cancelled its task before that emit had returned |
| `Approvals.LeakIsForever` | oxenclaw/approvals/manager.py:130-153 | A request leaked that way stays listed in every later run |
| `Approvals.LeakExample` | oxenclaw/approvals/manager.py:130-139 | The concrete run that leaks: announce, then cancel the task |
| `Approvals.ApprovalManager.Begin` | oxenclaw/approvals/manager.py:121-132 | Registers a fresh open request and rewrites the snapshot |
| `Approvals.ApprovalManager.End` | oxenclaw/approvals/manager.py:146-148 | Drops exactly this request, keeping the order of the others, and rewrites the snapshot |
| `Approvals.ApprovalManager.Resolve` | oxenclaw/approvals/manager.py:162-186 | Token check, unknown or completed request, or completion; whole new state and result |
| `Approvals.ApprovalManager.Cancel` | oxenclaw/approvals/manager.py:188-208 | The same for cancellation |
| `Approvals.ApprovalManager.CancelAll` | oxenclaw/approvals/manager.py:210-224 | The loop completes every open listed request in order and counts them |
| `PinCache.CacheIsSound` | oxenclaw/browser/pinning.py:68-144 | However threads interleave between the two lock sections the size never exceeds the capacity, hosts are distinct, and every stored or returned set is non-empty and policy-valid |
| `PinCache.CommitMeaning` | oxenclaw/browser/pinning.py:117-144 | The second lock section raises if and only if the host is resident and the sets are disjoint, then changing nothing; otherwise the host gets the union, and no other host changes except one eviction from a full cache |
| `PinCache.FailsExactly` | oxenclaw/browser/pinning.py:89-129 | For every raw answer of the name service: which failure it gives, if and only if; and a failure changes nothing |
| `PinCache.FinishFailsExactly` | oxenclaw/browser/pinning.py:89-129 | A resolving thread raises exactly so, judged by the pins at its second lock section |
| `PinCache.BlockedNewcomerExample` | oxenclaw/browser/pinning.py:75-78 | The pinned address together with a new blocked one is returned without the documented error |
| `PinCache.AllowedNewcomerExample` | oxenclaw/browser/pinning.py:75-78 | A new address that passes the policy, alone, is refused although the documentation names no such case |
| `PinCache.EvictionIsLeastRecent` | oxenclaw/browser/pinning.py:138-144 | An evicted host is the least recently touched one, the cache was full, and it is never the host just inserted |
| `PinCache.ResidentGrows` | oxenclaw/browser/pinning.py:117-137 | One step of any thread only grows a resident host's set, and only by a validated resolution that overlaps it |
| `PinCache.PinOnlyGrows` | oxenclaw/browser/pinning.py:68-151 | Over any run in which a host stays resident its set only grows |
| `PinCache.ReturnedIsPinned` | oxenclaw/browser/pinning.py:134-144 | A call that resolves returns its own validated addresses plus the prior pin, which is then the pin |
| `PinCache.HitMeaning` | oxenclaw/browser/pinning.py:83-87 | The first lock section answers if and only if the pin is younger than the TTL, and changes no pin |
| `PinCache.HostPinCache.LookUp` | oxenclaw/browser/pinning.py:81-87 | The first lock section, whole new state |
| `PinCache.HostPinCache.Validate` | oxenclaw/browser/pinning.py:89-115 | The two loops between the sections compute the allowed addresses or the right failure |
| `PinCache.HostPinCache.Store` | oxenclaw/browser/pinning.py:117-144 | The second lock section with its eviction loop, whole new state |
| `PinCache.HostPinCache.ResolveOrPin` | oxenclaw/browser/pinning.py:68-144 | The whole call when no other thread gets in between |
| `PinCache.HostPinCache.Invalidate` | oxenclaw/browser/pinning.py:146-151 | Removes one host or all, and keeps the order of the rest |
| `Transcript.TranscriptIsLegal` | oxenclaw/agents/pi_agent.py:1139-1209 | Repair, append one user message, merge: unless the merge raises the list has no two neighbours of one role, answers every tool use, ends with exactly the new message, and merging again changes nothing |
| `Transcript.CompositionRaisesExactly` | oxenclaw/agents/pi_agent.py:1209-1209 | The merge after a repair raises if and only if the repaired list has a usage clash |
| `Transcript.RepairMeaning` | oxenclaw/agents/incomplete_turn.py:44-102 | Repair drops exactly the maximal trailing user run and appends at most one message, which answers each unanswered id once in first-occurrence order; then all are answered |
| `Transcript.RepairIdempotent` | oxenclaw/agents/incomplete_turn.py:44-102 | Repairing twice is repairing once |
| `Transcript.MergeKeepsContent` | oxenclaw/agents/message_merge.py:32-132 | A merge keeps the exact sequences of assistant blocks, tool-use ids, tool-result messages, answered ids and user images |
| `Transcript.MergeKeepsTotals` | oxenclaw/agents/message_merge.py:103-122 | Every numeric usage key keeps its total over the list |
| `Transcript.MergeNormalises` | oxenclaw/agents/message_merge.py:32-63 | The result alternates, is shorter by exactly the number of repeats, merging again changes nothing, and nothing changes without repeats |
| `Transcript.MergeRaisesExactly` | oxenclaw/agents/message_merge.py:108-117 | The merge raises if and only if some assistant run has a usage key whose first value is not a number and a later one is |
| `Transcript.NullThenNumberRaises` | oxenclaw/agents/message_merge.py:113-117 | A null count followed by a number makes the merge raise |
| `Transcript.MergedUserText` | oxenclaw/agents/message_merge.py:79-100 | Two text-only user messages keep their texts in order around a separator |
| `Transcript.MessageList.Repair` | oxenclaw/agents/incomplete_turn.py:44-102 | The in-place passes leave the repaired list and return both counters |
| `Transcript.MessageList.DropTrailingUsers` | oxenclaw/agents/incomplete_turn.py:60-62 | The backward loop drops the trailing users and counts them |
| `Transcript.MessageList.CollectAnswered` | oxenclaw/agents/incomplete_turn.py:72-77 | The set of ids that some tool result answers |
| `Transcript.MessageList.CollectPending` | oxenclaw/agents/incomplete_turn.py:78-91 | The unanswered ids, each once, while `answered` grows |
| `Transcript.MessageList.AddUsage` | oxenclaw/agents/message_merge.py:111-117 | Adding one usage dictionary to the accumulator, or the type error |
| `Transcript.MessageList.MergeAssistants` | oxenclaw/agents/message_merge.py:103-122 | Contents concatenated, the later stop reason, usage summed or the type error |
| `Transcript.MessageList.Merge` | oxenclaw/agents/message_merge.py:32-63 | The in-place loop leaves the merged list and returns the drop in length; an exception leaves the list untouched |
| `EnvFile.PersistRoundTripsExactly` | oxenclaw/config/env_loader.py:43-98 | For every prior text, key and value the file parses back to the old mapping updated at the key if and only if the parser accepts the key and the value has no line break |
| `EnvFile.UnderscoreKeyIsLost` | oxenclaw/config/env_loader.py:95-96 | The key `_` is written and never read back, for every prior text and value |
| `EnvFile.TwoLineValueIsLost` | oxenclaw/config/env_loader.py:62-63 | A two-line value does not read back, for every prior text |
| `EnvFile.PersistThenParse` | oxenclaw/config/env_loader.py:43-98 | The direction that callers rely on |
| `EnvFile.PersistTwice` | oxenclaw/config/env_loader.py:43-65 | Persisting the same pair again leaves the text identical |
| `EnvFile.SplitJoined` | oxenclaw/config/env_loader.py:54-63 | Splitting the joined lines gives the lines back |
| `EnvFile.KeptParses` | oxenclaw/config/env_loader.py:55-61 | Dropping the prior lines of a key changes the parsed mapping at that key only |
| `EnvFile.AssignmentParses` | oxenclaw/config/env_loader.py:62-98 | The written line parses to its key and value and is recognised by the next persist |
| `EnvFile.PythonIsSane` | oxenclaw/config/env_loader.py:80-97 | Python's blanks and line boundaries meet the assumptions on character classes |
| `EnvFile.EnvironmentFile.PersistVar` | oxenclaw/config/env_loader.py:43-65 | The filtering loop and the rewrite of the file |
| `EnvFile.EnvironmentFile.ParseText` | oxenclaw/config/env_loader.py:74-98 | The parsing loop with all its skips |
| `PseudoTool.ScanIsExact` | oxenclaw/agents/pseudo_tool.py:169-203 | The spans found are exactly the maximal balanced top-level spans under string and escape rules, disjoint and in order, and `start` is set exactly while the depth is positive |
| `PseudoTool.RescanIsIdentity` | oxenclaw/agents/pseudo_tool.py:169-203 | Rescanning a returned span alone returns just it |
| `PseudoTool.ScanConcat` | oxenclaw/agents/pseudo_tool.py:169-203 | A text cut where the scanner is neutral scans as its two parts do |
| `PseudoTool.BareTopLevelObjects` | oxenclaw/agents/pseudo_tool.py:169-203 | The one-pass loop returns the substrings of those spans |
| `PseudoTool.MatchToSchema` | oxenclaw/agents/pseudo_tool.py:123-159 | The tie-tracking loop returns the non-empty name of the unique eligible schema of strictly greatest specificity, and nothing if there is none |
| `PseudoTool.AnswerIgnoresOrder` | oxenclaw/agents/pseudo_tool.py:123-159 | Its answer is determined by which tools there are, whatever the iteration order |
| `SseAssembly.ConsumeSse` | oxenclaw/agents/local_agent.py:542-605 | The loop over lines computes the assembled response of the events before the end mark |
| `SseAssembly.DependsOnlyOnParts` | oxenclaw/agents/local_agent.py:542-605 | The response depends only on the content text, last finish reason, last usage and each index's own deltas, however they interleave |
| `SseAssembly.SwapDeltas` | oxenclaw/agents/local_agent.py:573-587 | Swapping neighbouring deltas of different indices, within an event or across events, leaves the response unchanged |
| `SseAssembly.SplitDelta` | oxenclaw/agents/local_agent.py:573-587 | Cutting a delta's name and argument fragments anywhere, the second part in the same event or a later one, leaves the response unchanged |
| `SseAssembly.SplitEvent` | oxenclaw/agents/local_agent.py:550-587 | Cutting an event inside one of its deltas into two events leaves the response unchanged |
| `SseAssembly.SplitContent` | oxenclaw/agents/local_agent.py:570-572 | Cutting a content fragment changes nothing |
| `SseAssembly.CallsInOrder` | oxenclaw/agents/local_agent.py:589-594 | Calls come out in strictly increasing index order, one per index seen, each the sum of its own deltas |
| `SseAssembly.ArgumentsAreFragments` | oxenclaw/agents/local_agent.py:583-587 | A call's arguments are the concatenated fragments of its index |
| `SseAssembly.TakeCalls` | oxenclaw/agents/local_agent.py:573-587 | The inner loop keeps the buffer equal to the deltas seen, index by index |
| `SseAssembly.InOrder` | oxenclaw/agents/local_agent.py:593-594 | Reading the buffer in sorted key order gives those calls |
| `CanvasBus.SubscriberSees` | oxenclaw/canvas/events.py:68-94 | Consumed plus queued events of each subscriber are, in order, those published since it subscribed minus exactly those published while its queue was full |
| `CanvasBus.SubscribersIndependent` | oxenclaw/canvas/events.py:68-94 | A subscriber's whole state is what it would be alone on the bus with the same publications and its own operations |
| `CanvasBus.AnswersAreFinal` | oxenclaw/canvas/events.py:110-131 | A completed evaluation keeps its answer in every later run |
| `CanvasBus.CanvasEventBus.PublishEvent` | oxenclaw/canvas/events.py:68-81 | The fan-out loop, whole new state and the delivered count |
| `CanvasBus.CanvasEventBus.CompleteEval` | oxenclaw/canvas/events.py:118-131 | Both completion methods, whole new state and success flag |
| `ReconnectWatcher.ProbesAreBounded` | oxenclaw/channels/router.py:226-248 | A channel that has not recovered was probed at most 19 times since its first failure, its attempts respect the ladder, and attempt 20 comes no earlier than 4950 seconds after the first failure |
| `ReconnectWatcher.GivenUpForGood` | oxenclaw/channels/router.py:229-237 | After an auth-like failure or the last attempt a channel is never probed again and its record never changes |
| `ReconnectWatcher.ProbedOnlyWhenDue` | oxenclaw/channels/router.py:228-240 | A probed channel was due: below the limit, not an auth failure, its wait over |
| `ReconnectWatcher.LadderGrows` | oxenclaw/channels/router.py:37-37 | The closed form of the ladder from the fourth wait on |
| `ReconnectWatcher.PassIsLoop` | oxenclaw/channels/router.py:226-248 | A pass of the machine can always finish, and leaves the failed list that the probing loop over the due channels leaves |
| `ReconnectWatcher.ChannelRouter.RecordFailure` | oxenclaw/channels/router.py:134-164 | One failure: attempts, error, flag and next retry |
| `ReconnectWatcher.ChannelRouter.CollectDue` | oxenclaw/channels/router.py:228-237 | The due channels, each exactly once |
| `ReconnectWatcher.ChannelRouter.ProbeDue` | oxenclaw/channels/router.py:239-248 | The probing loop marks each failure and each recovery in order |

## Left out

- HTTP, websockets, subprocess spawning and handshake, Playwright, DNS, sqlite, logging, telemetry and file system errors: inputs of the steps that use them, or nothing.
- The agents themselves: model inference, tool execution, prompts and images are any finite sequence of outbounds or events.
- Busy acknowledgements, `queued_at`, `pending_messages`, `abort_event` and the interrupt and steer policies of the lanes: they touch neither locks nor permits.
- Two concurrent prompts on one ACP session share one queue; the end-to-end theorem has one prompt in flight per session.
- `session/cancel` in the end-to-end theorem: the server side models it, but the backend keeps its own cancel flag, so no relation between cancels and turns is claimed.
- A turn started on a session key that is not registered yields one error event and ends; the client turn starts from a registered session.
- In `AcpServer`, the texts of error messages and the agent information are simplified, and the pydantic parameter models are written out for the fields this server reads.
- In `AcpClient`, futures and session states are values in two sequences, not objects.
- In `EndToEnd` and `RoundTrip`, the pipes carry messages, which `Framing` relates to bytes; the handshake and the `session/new` exchange that precede the prompt are steps of each end and do not travel through the pipes.
- In `StaleReads`, a left-over read may take the head of the queue at any time; which of two waiting reads the queue serves first is not fixed.
- In `Approvals`, the state file is always written successfully, a startup snapshot is not read, a token comparison that raises on non-ASCII text counts as a refusal, and the refusal text given to the model is the verdict itself.
- In `PinCache`, host names are lowered as ASCII; `assert_ip_allowed` is one fixed policy.
- In `Transcript`, other list rewrites between repair and merge (image pruning, sanitising of malformed blocks) and `truncate_to_window`.
- In `PseudoTool`, the fenced-block regular expression, JSON parsing and the unwrapping of call shapes around the two algorithms.
- In `SseAssembly`, events are records of the fields that the loop reads; an event of another shape, on which the source raises, is not represented, and a usage dictionary is a token.
- In `EnvFile`, home directory lookup, file mode and the copying into the process environment.
- In `CanvasBus`, event timestamps, and the convenience iterator over a subscription.
- In `ReconnectWatcher`, `last_attempt` and the health report; the two clock readings of one failure are taken to be equal; at most one watcher runs.
