# claude-companion: remote command and event coordination, in Dafny

claude-companion lets an operator watch Claude Code agents from a web
dashboard and steer them: the agent's hooks report every tool call and
stop to a server, and before a tool runs (or the session stops) the hook
polls the server's command broker for an operator decision — approve,
deny, inject context, interrupt, continue or stop. This project models
the coordination core of that system as pure state transformers and
proves what its parts promise each other:

- the server's command broker (create, list pending, claim, complete,
  the expiry and retention sweeps) and its bookkeeping invariant;
- the agent hooks (pre-tool-use and stop): the poll loop and its clock, the
  command-to-decision mapping, and the rule that every failure lets the
  agent proceed;
- the server's broadcast hub (bounded history, per-client filtering,
  failure isolation, replay, idle eviction), its in-memory storage of
  computers, agents, sessions and events, and the hook-ingest rules
  (session choice, risk classification);
- the dashboard: the offline command queue, the two connection state
  machines with capped exponential backoff, the event store and its
  views, and the pure string and classification helpers for commands,
  agents and events, plus the command client's quick actions.

Time is an integer number of milliseconds passed in as `now`; identifiers
that the code draws from `Math.random` or the clock are fresh parameters;
every network exchange is an abstract outcome `Ok(body) | NotOk | Throw`
(module `HookUtils`), and a scripted sequence of such outcomes where the
code loops. One Dafny module per source file; `Domain` holds the shared
records (commands, hook events, responses) and `Text`, `Seqs` and
`Wrappers` the string, sequence and option helpers.

## Model

| member | source | states |
|---|---|---|
| Broker.Resolve | server/src/commands/commands.service.ts:102-107 | resolving an index gives one command for each id that names a stored command and nothing else |
| Broker.ResolveInOrder | server/src/commands/commands.service.ts:102-107 | the resolved list follows index order: its `k`-th command is the one named by the `k`-th id that names a stored command |
| Broker.ListPending | server/src/commands/commands.service.ts:52-60 | an agent's pending list is an order-preserving subsequence of its resolved index holding exactly the pending commands whose expiry is strictly after now |
| Broker.GetCommand | server/src/commands/commands.service.ts:62-68 | a lookup succeeds exactly for a stored id and otherwise fails with NotFound |
| Broker.Create | server/src/commands/commands.service.ts:21-50 | a created command is pending, expires 30 s after now, carries an empty payload when none was given, is stored under its id and appended to its own agent's index only |
| Broker.Claim | server/src/commands/commands.service.ts:70-84 | a claim succeeds exactly when the id names a pending command; an unknown id fails with NotFound, a non-pending one with NotPending, changing nothing; a successful claim changes only that command's status, to processing |
| Broker.Complete | server/src/commands/commands.service.ts:86-96 | completion sets exactly the requested status whatever the current one, and fails only for an unknown id |
| Broker.ExpirySweep | server/src/commands/commands.service.ts:115-128 | the sweep expires exactly the pending commands whose expiry is strictly before now, leaves every other command and the index untouched, and leaves no overdue command behind |
| Broker.RetentionSweep | server/src/commands/commands.service.ts:134-149 | the sweep deletes exactly the commands created more than an hour before now and leaves the survivors unchanged |
| Broker.ResolveAppend | server/src/commands/commands.service.ts:102-107 | appending a stored id to an index appends its command to the resolved list |
| Broker.ResolveIgnores | server/src/commands/commands.service.ts:102-107 | what an id maps to does not matter to an index that never names it |
| Broker.LiveViewUnchanged | server/src/commands/commands.service.ts:52-60 | the pending view of an index depends only on the live commands it names |
| Broker.CreatePreservesWf | server/src/commands/commands.service.ts:21-50 | creating a command under a fresh id keeps every command filed once under its own agent and every index non-empty and duplicate free |
| Broker.CreateThenListed | server/src/commands/commands.service.ts:21-60 | until it expires a new command is listed last for its agent, after everything that was pending before |
| Broker.ClaimPreservesWf | server/src/commands/commands.service.ts:70-84 | a claim keeps the broker's bookkeeping invariant |
| Broker.ClaimIsExclusive | server/src/commands/commands.service.ts:70-84 | after a claim a second claim of the same command fails with NotPending and no agent's pending list shows it |
| Broker.CompletePreservesWf | server/src/commands/commands.service.ts:86-96 | completion keeps the broker's bookkeeping invariant |
| Broker.ExpirySweepKeepsOwners | server/src/commands/commands.service.ts:115-128 | the expiry sweep keeps every command and every index, and each command's id and agent: only statuses change |
| Broker.ExpirySweepPreservesWf | server/src/commands/commands.service.ts:115-128 | the expiry sweep keeps the broker's bookkeeping invariant |
| Broker.ExpirySweepKeepsListing | server/src/commands/commands.service.ts:52-60 | expiring overdue commands never changes what an agent is shown at the same instant |
| Broker.ExpiryBoundary | server/src/commands/commands.service.ts:57 | a pending command whose expiry equals now is neither listed nor expired |
| Broker.TrimmedIndex | server/src/commands/commands.service.ts:141-142 | an index with the deleted commands filtered out stays duplicate free and names only surviving commands of its agent |
| Broker.UntouchedIndex | server/src/commands/commands.service.ts:136-147 | an index holding a deleted command belongs to an agent the sweep rewrites |
| Broker.RetainedIndex | server/src/commands/commands.service.ts:141-147 | every index left after the retention sweep is non-empty, duplicate free and names only surviving commands of its agent; it keeps every surviving entry of the old index, in the old order |
| Broker.RetentionSweepPreservesWf | server/src/commands/commands.service.ts:134-149 | the retention sweep keeps the bookkeeping invariant and no index names a deleted command |
| Broker.SurvivorIndexed | server/src/commands/commands.service.ts:138-147 | a command the retention sweep keeps is still listed in its agent's index |
| Broker.CleanupPreservesWf | server/src/commands/commands.service.ts:115-150 | the whole periodic sweep keeps the bookkeeping invariant |
| Broker.CommandsByAgentExact | server/src/commands/commands.service.ts:102-107 | under the invariant an agent's command list holds exactly the stored commands addressed to that agent |
| HookUtils.SendHookEvent | agent/src/utils/hook-utils.ts:4-47 | reporting an event blocks the tool only when the server answered 2xx in time with a blocking response; an abort or thrown fetch gives the hook-error approval, a non-2xx reply the server-unavailable approval |
| HookUtils.CheckForPendingCommands | agent/src/utils/hook-utils.ts:80-115 | the poll yields commands only from a timely 2xx reply whose body is an array, and then exactly that array |
| HookUtils.BookkeepingNeverFails | agent/src/utils/hook-utils.ts:117-164 | claiming and completing record the same call whatever the server answers |
| HookUtils.ParseStdinData | agent/src/utils/hook-utils.ts:56-78 | unreadable or empty stdin gives an empty object, unparsable text gives the raw-data object, text that parses to `null` gives `null`, and any other parsed value is exactly what the parser returned |
| PollLoop.ScanFor | agent/src/hooks/pre-tool-use.ts:131-146 | a scan that finds a command finds a listed one that targets this session (or none) and that the hook accepts |
| PollLoop.ScanForFirst | agent/src/hooks/pre-tool-use.ts:133-146 | the command found is the first wanted entry of the reply, with no null entry before it |
| PollLoop.ScanForNone | agent/src/hooks/stop.ts:68-86 | a scan finds nothing exactly when every entry is a command and none is wanted, and it fails only on a null entry |
| PollLoop.Loop | agent/src/hooks/pre-tool-use.ts:117-164 | a loop started at or after the deadline polls nothing; without a chosen command the answer is the hook's fallback, with one it is that command's decision and the command is wanted; the clock is charged for each answer (cut at the abort), each body read, and the claim and completion of the chosen command |
| PollLoop.LoopTiming | agent/src/hooks/pre-tool-use.ts:124-157 | no poll starts at or after the deadline and polls start at least 500 ms apart; the loop ends before the deadline plus one poll abort plus one sleep plus the unbounded waits of its last poll (its body read, and the claim and completion of a chosen command), and those waits are charged in full |
| PollLoop.LoopCalls | agent/src/hooks/pre-tool-use.ts:126-157 | a run makes one list request per poll and, if it chose a command, then claims and completes exactly that command |
| PollLoop.LoopChoice | agent/src/hooks/pre-tool-use.ts:131-155 | the chosen command is the scan result of the last poll's reply, so no command for another non-empty session is ever claimed; the loop leaves through its `catch` exactly when the last poll's reply faulted |
| PollLoop.SilentBrokerFallsBack | agent/src/hooks/pre-tool-use.ts:126-163 | when no poll ever yields a command the loop returns the fallback, never takes its `catch` and claims nothing, ending before the deadline plus one abort, one sleep and the body read of its last poll |
| PreToolUse.ExecuteCommand | agent/src/hooks/pre-tool-use.ts:166-202 | only deny and interrupt block the tool; every decision has a reason, the operator's when given and otherwise "Approved remotely", "Denied remotely" or "Execution interrupted", and always "Context provided remotely" for context; approve and deny pass the feedback, context passes instructions else feedback; continue, stop and others proceed as unknown |
| PreToolUse.ToolEvent | agent/src/hooks/pre-tool-use.ts:56-82 | the reported event is a pre_tool_use event under the context's agent id, the hook's session id and the current time; it carries the whole parsed stdin, the tool name, arguments, session, transcript path and cwd when stdin parsed (none otherwise), and the context's computer id, machine name, host name, platform, agent name and working directory |
| PreToolUse.ReportedComputerNamed | agent/src/hooks/pre-tool-use.ts:75-78 | a computer first reported by this hook is registered by the server under the context's machine name, host name and platform |
| PreToolUse.Run | agent/src/hooks/pre-tool-use.ts:16-115 | the hook exits with status 1 exactly when the server or agent argument is missing; it ends without printing anything exactly when a step of its `try` throws and the `catch`'s own debug-log write throws too; otherwise it first checks for interrupts, and it blocks only when it claimed a command |
| PreToolUse.Monitor | agent/src/hooks/pre-tool-use.ts:41-98 | the monitoring path extends the calls made so far; when no step throws (a debug-log write, reading `tool_name` off a `null` stdin, the context lookup) it prints the poll loop's decision, when one throws it prints the error response unless the `catch`'s log write fails, and then it prints nothing; it blocks only with a claimed command |
| PreToolUse.InterruptFirst | agent/src/hooks/pre-tool-use.ts:24-39 | a pending interrupt is claimed and completed and stops the tool with its reason or the dashboard default, before stdin is read or any event is sent |
| PreToolUse.FailuresProceed | agent/src/hooks/pre-tool-use.ts:99-114 | a failed interrupt lookup, debug-log write, read of a field of a `null` stdin or context lookup approves with the hook-execution-error reason, unless the `catch`'s own log write fails as well, in which case the rejection escapes `main` and nothing is printed |
| PreToolUse.PollFaultEscapes | agent/src/hooks/pre-tool-use.ts:152-156 | a faulting poll falls back to the no-commands reason when the loop's debug-log write succeeds; when it throws, the run ends as any other failure inside the `try` |
| PreToolUse.NormalPath | agent/src/hooks/pre-tool-use.ts:41-97 | when nothing fails (the loop's own log write may fail, but only in a run where no poll faults) the run is the interrupt lookup, the stdin read, the event report and the poll loop, and it prints the loop's decision and claims the loop's choice |
| PreToolUse.PollsWithContextAgent | agent/src/hooks/pre-tool-use.ts:56-97 | on the normal path (no debug-log write inside the `try` fails, stdin is not `null`) the hook reads stdin, reports the event, then only polls for the context's agent, and prints the loop's decision |
| PreToolUse.NullStdinFails | agent/src/hooks/pre-tool-use.ts:44-51 | stdin that parses to `null` makes the hook fail right after reading it: no event is reported, the broker is never polled, nothing is claimed, and the tool is approved with the error reason (or nothing is printed when the `catch`'s log write fails) |
| PreToolUse.RunIsMonitor | agent/src/hooks/pre-tool-use.ts:24-41 | with no interrupt pending the run is the monitoring path |
| PreToolUse.MonitorBlocks | agent/src/hooks/pre-tool-use.ts:41-98 | the monitoring path blocks only when no step threw, through the poll loop's decision, after the event was reported |
| PreToolUse.BlockedOnlyByClaimedCommand | agent/src/hooks/pre-tool-use.ts:24-164 | a blocked tool is always explained by a claimed and completed command: an interrupt, or a deny or interrupt for this session or none |
| PreToolUse.QuietBrokerApproves | agent/src/hooks/pre-tool-use.ts:159-163 | with nothing on offer for the whole window the hook approves with the no-commands reason and claims nothing; the loop's own log write never happens, so only the other writes matter |
| PreToolUse.ServerAnswerIgnored | agent/src/hooks/pre-tool-use.ts:87-91 | the server's answer to the reported event never changes the hook's outcome |
| StopHook.ExecuteSessionCommand | agent/src/hooks/stop.ts:104-126 | only continue keeps the session running; every decision has a reason, the operator's when given and otherwise "Continue session requested" or "Stop session confirmed"; continue passes instructions else feedback, stop passes feedback, other types let the agent stop |
| StopHook.StopEvent | agent/src/hooks/stop.ts:28-37 | the reported event is a stop event under the argument's agent id and the hook's session id, with the stopping message and the whole parsed stdin as raw input, and no tool or computer fields |
| StopHook.Run | agent/src/hooks/stop.ts:14-52 | the hook exits with status 1 exactly when an argument is missing and otherwise always prints a response; it reads stdin and reports first, keeps the session only through a claimed continue, and claims only session-control commands for its session |
| StopHook.RunCalls | agent/src/hooks/stop.ts:54-102 | a run polls only for the argument's agent and claims and completes at most one command |
| StopHook.SkipsOtherTypes | agent/src/hooks/stop.ts:70-85 | a command of another type listed first is passed over for the session-control command after it |
| StopHook.QuietBrokerLetsStop | agent/src/hooks/stop.ts:97-101 | with nothing on offer for five seconds the agent is let stop with the no-commands reason |
| StopHook.FailedPollLetsStop | agent/src/hooks/stop.ts:91-94 | a poll that fails ends the loop at once and lets the agent stop |
| Hub.AddToHistory | server/src/events/events.service.ts:139-146 | the new entry is last and the history is the newest part of what it held plus the entry; below the bound nothing is dropped, on overflow exactly the newest 900 remain |
| Hub.HistoryBounded | server/src/events/events.service.ts:139-146 | however many entries are added the history stays within 1000 and holds at least the newest 900 of everything seen |
| Hub.HistoryKeepsNewest | server/src/events/events.service.ts:139-146 | after any number of additions the history is a suffix, in order, of everything added |
| Hub.Broadcast | server/src/events/events.service.ts:89-114 | a broadcast leaves the history alone and never adds a subscriber |
| Hub.BroadcastEffect | server/src/events/events.service.ts:89-114 | a subscriber is dropped exactly when it was written to and its write failed; a kept one keeps its filter and token, and when the filter lets the message through it is sent it and its last-seen time is refreshed |
| Hub.BroadcastHookEvent | server/src/events/events.service.ts:57-66 | a hook event is recorded in the history before it is broadcast |
| Hub.BroadcastAgentStatus | server/src/events/events.service.ts:68-77 | an agent status is recorded in the history before it is broadcast |
| Hub.BroadcastError | server/src/events/events.service.ts:79-87 | an error is broadcast but never recorded |
| Hub.ItemsOf | server/src/events/events.service.ts:57-87 | each publication becomes one stream message carrying its data and time, in order |
| Hub.PublishReaches | server/src/events/events.service.ts:57-114 | a subscriber whose write succeeds stays subscribed with its filter and is sent the message exactly when its filter lets it through |
| Hub.DeliveriesFilter | server/src/events/events.service.ts:93-101 | what a subscriber is sent over several publications is the published messages filtered by its agent filter |
| Hub.SubscriberReceivesAllStep | server/src/events/events.service.ts:57-114 | across several publications a subscriber whose writes succeed keeps its filter and accumulates exactly its filtered deliveries |
| Hub.SubscriberReceivesAll | server/src/events/events.service.ts:57-114 | a subscriber whose writes all succeed stays subscribed and is sent exactly the published messages its filter lets through, in order |
| Hub.EligibleIsFilter | server/src/events/events.service.ts:120-128 | the replay candidates are the recent entries the subscriber's filter lets through |
| Hub.Replay | server/src/events/events.service.ts:116-137 | replay sends a prefix of the filtered recent entries, every write of which succeeded, and stops short only at a failed write |
| Hub.Recent | server/src/events/events.service.ts:118 | the replayed window is the newest 50 history entries, or all of them when there are fewer |
| Hub.CleanupClients | server/src/events/events.service.ts:148-156 | exactly the subscribers seen within the last ten minutes remain, unchanged, and the history is untouched |
| Hub.AddClient | server/src/events/events.service.ts:20-42 | the new subscriber is registered with last-seen now and its filter, has been sent a prefix of the filtered recent history (all of it when every write succeeds), and only idle others are evicted |
| Hub.RemoveClient | server/src/events/events.service.ts:44-55 | only that subscriber goes, every other is unchanged, and an unknown id changes nothing |
| OfflineQueue.Enqueue | client/src/services/offlineCommandQueue.ts:21-34 | enqueueing returns the new id and appends exactly one command at the back with no retries, keeping the rest, the unique ids and the retry bound |
| OfflineQueue.RemoveId | client/src/services/offlineCommandQueue.ts:51 | removing by id keeps exactly the commands with another id |
| OfflineQueue.SetRetries | client/src/services/offlineCommandQueue.ts:55 | counting a retry changes only the command with that id |
| OfflineQueue.Flush | client/src/services/offlineCommandQueue.ts:36-67 | a flush run to its end while no other flush runs, and of a non-empty queue, ends with the flag cleared; otherwise it changes nothing |
| OfflineQueue.StartFlush | client/src/services/offlineCommandQueue.ts:36-44 | a flush starting on an idle non-empty queue raises the flag and takes the whole queue as its snapshot; while a flush runs, or on an empty queue, it changes nothing |
| OfflineQueue.Settle | client/src/services/offlineCommandQueue.ts:46-66 | each settled send consumes one snapshot command and removes it from the queue unless it failed with retries left; the flag drops with the last one |
| OfflineQueue.FlushIsSteps | client/src/services/offlineCommandQueue.ts:36-67 | a flush nothing interrupts, settled send by send, ends exactly as the one-step flush |
| OfflineQueue.FlushDuringFlush | client/src/services/offlineCommandQueue.ts:37-41 | a second flush while one runs returns at once, also after a clear or an enqueue since the first started |
| OfflineQueue.ClearDuringFlush | client/src/services/offlineCommandQueue.ts:46-72 | after a clear during a flush the outstanding sends still settle, no command returns to the queue, and the flag drops after the last |
| OfflineQueue.RemoveIdAbsent | client/src/services/offlineCommandQueue.ts:51 | removing an id the queue does not hold leaves it unchanged |
| OfflineQueue.IdOnlyOnce | client/src/services/offlineCommandQueue.ts:21-34 | in a queue with unique ids a command's id occurs nowhere else |
| OfflineQueue.RemoveStep | client/src/services/offlineCommandQueue.ts:51 | removing a command whose id is unique takes out exactly that command |
| OfflineQueue.SetRetriesStep | client/src/services/offlineCommandQueue.ts:55 | counting a retry on a command with a unique id changes exactly that command in place |
| OfflineQueue.UniqueIdsPreserved | client/src/services/offlineCommandQueue.ts:51-60 | dropping a command or changing its retries keeps the ids unique |
| OfflineQueue.FlushLoopSpec | client/src/services/offlineCommandQueue.ts:44-64 | the flush loop replaces the snapshot by its survivors and leaves the commands before and after it untouched |
| OfflineQueue.FlushMatchesSurvivors | client/src/services/offlineCommandQueue.ts:36-67 | a flush leaves exactly the commands whose send failed and that have retries left, each with one more retry, in order |
| OfflineQueue.EnqueuedDuringFlushUntouched | client/src/services/offlineCommandQueue.ts:44 | commands enqueued after the snapshot are not attempted and stay queued behind the survivors |
| OfflineQueue.SurvivorsRetriesLeft | client/src/services/offlineCommandQueue.ts:54-63 | no survivor has used up its three attempts and none was sent |
| OfflineQueue.FlushKeepsRetriesLeft | client/src/services/offlineCommandQueue.ts:18-67 | after a flush every queued command has a retry left and no sent command remains |
| OfflineQueue.Clear | client/src/services/offlineCommandQueue.ts:69-72 | clearing empties the queue and leaves a running flush's flag and outstanding sends alone |
| OfflineQueue.QueueSize | client/src/services/offlineCommandQueue.ts:74-76 | the size is the number of queued commands, zero exactly when the queue is empty |
| OfflineQueue.PendingCommands | client/src/services/offlineCommandQueue.ts:78-80 | the copy holds the queued commands in order |
| StreamManager.ReconnectDelay | client/src/services/eventStreamManager.ts:123-127 | the back-off is 1 s doubled once per attempt, capped at 30 s: never above either, and equal to one of them, so never below 1 s |
| StreamManager.Pow2Monotone | client/src/services/eventStreamManager.ts:124-127 | the doubling factor never shrinks as attempts grow |
| StreamManager.DelayMonotone | client/src/services/eventStreamManager.ts:123-127 | the back-off never shrinks as attempts grow and is the 30 s cap from the sixth attempt on |
| StreamManager.UpdateStatus | client/src/services/eventStreamManager.ts:136-147 | listeners are notified of the new status exactly when it differs from the current one, and nothing else changes |
| StreamManager.Connect | client/src/services/eventStreamManager.ts:29-35 | connecting is a no-op while connected or connecting; otherwise a source is opened and the status becomes connecting |
| StreamManager.OnOpen | client/src/services/eventStreamManager.ts:37-45 | an open source resets the attempts, reports connected and cancels any pending reconnect |
| StreamManager.ScheduleReconnect | client/src/services/eventStreamManager.ts:116-134 | scheduling while a reconnect is pending is a no-op; otherwise the status becomes reconnecting with the back-off for the current attempt count |
| StreamManager.OnError | client/src/services/eventStreamManager.ts:106-121 | an error closes the source and leaves a reconnect pending: a new one in the reconnecting state, or the one already pending with the status disconnected; listeners hear "disconnected" (unless already so) and then "reconnecting" when a new reconnect is scheduled |
| StreamManager.OnTimer | client/src/services/eventStreamManager.ts:129-133 | the firing timer counts one more attempt, clears itself and connects |
| StreamManager.Disconnect | client/src/services/eventStreamManager.ts:68-81 | disconnecting cancels the reconnect, closes the source, reports disconnected and resets the attempts |
| StreamManager.OnStatusChange | client/src/services/eventStreamManager.ts:87-96 | a new listener first hears the current status |
| StreamManager.UpdateStatusValidLog | client/src/services/eventStreamManager.ts:136-147 | the notification log stays a change-only history ending in the current status |
| StreamManager.StepPreservesValid | client/src/services/eventStreamManager.ts:29-147 | every operation keeps the manager reachable: a source is open exactly while connecting or connected, connected rules out a pending reconnect, reconnecting implies one |
| StreamManager.RunPreservesValid | client/src/services/eventStreamManager.ts:29-147 | any sequence of operations keeps the manager reachable, so listeners never hear the same status twice in a row |
| StreamManager.InitialValid | client/src/services/eventStreamManager.ts:16-21 | the initial disconnected manager is reachable |
| SseClient.Cleanup | client/src/services/sse-client.ts:91-101 | cleaning up closes the source and cancels the reconnect, keeping the counters, the flag and the target |
| SseClient.CreateConnection | client/src/services/sse-client.ts:33-41 | a new connection replaces any source with a connecting one for the given agent and cancels the pending reconnect |
| SseClient.Connect | client/src/services/sse-client.ts:18-21 | connecting clears the manual-disconnect flag and opens a connecting source for the given agent |
| SseClient.Disconnect | client/src/services/sse-client.ts:23-26 | disconnecting sets the manual flag, closes the source and cancels the reconnect |
| SseClient.OnOpen | client/src/services/sse-client.ts:43-47 | an open source resets the attempts to zero and the delay to 1 s |
| SseClient.ScheduleReconnect | client/src/services/sse-client.ts:67-89 | nothing happens after five attempts or a manual disconnect; otherwise exactly one attempt is counted, the timer is armed with the current delay and the delay becomes twice it plus jitter, capped at 30 s |
| SseClient.OnError | client/src/services/sse-client.ts:58-64 | after a manual disconnect an error schedules nothing and counts no attempt |
| SseClient.OnTimer | client/src/services/sse-client.ts:78-82 | the timer reconnects to the same agent unless the client was disconnected by hand |
| SseClient.GetConnectionState | client/src/services/sse-client.ts:103-116 | the state is closed without a source, open exactly for an open source and connecting exactly for a connecting one |
| SseClient.StepPreservesValid | client/src/services/sse-client.ts:18-101 | every event keeps the attempts within five, the delay within 1 s to 30 s and a timer only without a source; it counts at most one attempt and only an open lowers the delay |
| SseClient.RunKeepsBounds | client/src/services/sse-client.ts:18-101 | any sequence of events keeps those bounds, and between opens the delay never decreases |
| SseClient.StaysDisconnected | client/src/services/sse-client.ts:58-82 | after a manual disconnect no event short of connect opens a source or counts an attempt |
| SseClient.AttemptsExhausted | client/src/services/sse-client.ts:67-71 | once five attempts were made an error schedules no further reconnect |
| DashboardStore.SetConnectionStatus | client/src/store/dashboard-store.ts:44-49 | the store is connected exactly when the new status is connected, and the events and agents are untouched |
| DashboardStore.AddEvent | client/src/store/dashboard-store.ts:51-59 | the new event comes first, followed by the previous events in order, with the oldest dropped beyond 500 |
| DashboardStore.EventsBounded | client/src/store/dashboard-store.ts:51-59 | however many events arrive the list stays within 500 and starts with the newest |
| DashboardStore.UpdateAgent | client/src/store/dashboard-store.ts:61-70 | only that agent's entry is added or replaced |
| DashboardStore.RemoveAgent | client/src/store/dashboard-store.ts:72-78 | only that agent's entry goes |
| DashboardStore.SetSelectedAgent | client/src/store/dashboard-store.ts:80-82 | the selection changes and the events are untouched |
| DashboardStore.SetEventFilter | client/src/store/dashboard-store.ts:84-86 | the filter changes and the events are untouched |
| DashboardStore.ClearEvents | client/src/store/dashboard-store.ts:88-90 | clearing empties the events and keeps the agents |
| DashboardStore.GetActiveAgents | client/src/store/dashboard-store.ts:93-96 | the active agents are exactly the stored agents whose status is active |
| DashboardStore.GetFilteredEvents | client/src/store/dashboard-store.ts:98-114 | the view is an order-preserving subsequence holding exactly the events of the chosen type (any type for all) and of the selected agent, if one is selected |
| DashboardStore.FilteredCount | client/src/store/dashboard-store.ts:98-114 | the filtered view keeps every copy of an event that passes the filters and none of the others |
| DashboardStore.GetAgentEvents | client/src/store/dashboard-store.ts:116-119 | an agent's events are exactly its events, in order, each as many times as the store lists it |
| DashboardStore.SelectedAgentView | client/src/store/dashboard-store.ts:98-119 | with every type shown and one agent selected, the filtered view is that agent's events |
| DashboardStore.GetEventsByType | client/src/store/dashboard-store.ts:148-151 | the events of a tool are exactly those whose tool name matches ignoring case, in order and with every copy; an event without a tool name never matches |
| DashboardStore.LatestOf | client/src/store/dashboard-store.ts:136-139 | an agent's latest event exists exactly when it has events, belongs to it, and has no later timestamp among them |
| DashboardStore.LatestIsFirstMaximal | client/src/store/dashboard-store.ts:136-139 | among ties for the latest timestamp the first in list order is chosen, as the stable descending sort leaves it |
| DashboardStore.AgentOrder | client/src/store/dashboard-store.ts:125-131 | the grouping lists each agent that has events exactly once |
| DashboardStore.Collect | client/src/store/dashboard-store.ts:133-143 | the result holds, for the listed agents, exactly the latest events that are pre-tool-use ones |
| DashboardStore.CollectDistinct | client/src/store/dashboard-store.ts:133-143 | distinct agents yield events of distinct agents |
| DashboardStore.GetActiveEvents | client/src/store/dashboard-store.ts:121-146 | the grouping throws exactly when an event's agent id is a key a plain object inherits (`constructor`, `toString`, `__proto__` and the like); otherwise it returns the active events |
| DashboardStore.ActiveEvents | client/src/store/dashboard-store.ts:133-145 | the active events are pre-tool-use events of the store, at most one per agent, each the one the newest-first stable sort puts first for its agent (no later event, earliest listed among ties), and every agent whose latest event is a pre-tool-use one is represented |
| Storage.UpdateComputerLastSeen | server/src/modules/storage/storage.service.ts:34-39 | only a known computer's last-seen time changes; an unknown id changes nothing |
| Storage.FindOrCreateComputer | server/src/modules/storage/storage.service.ts:181-197 | a new computer is registered as given; a known one only has its last-seen time refreshed; either way the stored record is returned |
| Storage.Apply | server/src/modules/storage/storage.service.ts:66-74 | an update assigns exactly the fields it carries and stamps the activity time, keeping the agent's identity |
| Storage.RegisterAgent | server/src/modules/storage/storage.service.ts:42-47 | the agent is stored under its id and its computer's last-seen time is refreshed |
| Storage.UpdateAgent | server/src/modules/storage/storage.service.ts:66-74 | a known agent gets the update and a fresh activity time, the updated record is returned, and an unknown id changes nothing |
| Storage.UpdateAgentStatus | server/src/modules/storage/storage.service.ts:76-78 | only that agent's status and activity time change |
| Storage.FindOrCreateAgent | server/src/modules/storage/storage.service.ts:158-179 | afterwards the agent is stored and active with the given working directory; a new one is registered as given, a known one keeps its computer, name and current session, and no other agent changes |
| Storage.CreateSession | server/src/modules/storage/storage.service.ts:81-94 | the session is stored with an empty event list, replacing any under the same id, and a known agent becomes active with it as its current session |
| Storage.CreateSessionWf | server/src/modules/storage/storage.service.ts:81-94 | a new session keeps the store well formed and, starting from a zero count, every count in agreement with its event list |
| Storage.GetSession | server/src/modules/storage/storage.service.ts:96-102 | a stored session is returned with its events, and only a stored one |
| Storage.EndSession | server/src/modules/storage/storage.service.ts:113-127 | only a stored session without an end time is ended, at now with the given status; otherwise nothing changes; the session is returned either way |
| Storage.EndSessionAgent | server/src/modules/storage/storage.service.ts:119-124 | ending a session sets its agent idle with no current session exactly when it was that agent's current session and had not ended before; otherwise the agent is untouched |
| Storage.EndSessionIdempotent | server/src/modules/storage/storage.service.ts:113-127 | a second end of the same session changes nothing |
| Storage.UpdateSessionEventCount | server/src/modules/storage/storage.service.ts:129-135 | a stored session's count becomes the length of its event list |
| Storage.EventsBySession | server/src/modules/storage/storage.service.ts:153-155 | a session's events are its stored list, or none |
| Storage.AddEvent | server/src/modules/storage/storage.service.ts:138-151 | the event is appended to the session's list, a stored session's count then equals the list's length, and no other session and no agent's status or current session changes |
| Storage.AddEventKeepsCounts | server/src/modules/storage/storage.service.ts:129-151 | adding an event keeps the store well formed and every count in agreement with its list, and the session's list grows by one |
| Storage.GetActiveSessionForAgent | server/src/modules/storage/storage.service.ts:200-206 | the active session is the stored session the agent's current-session id names, and exists exactly when that id is set and stored |
| Storage.CreatedSessionIsActive | server/src/modules/storage/storage.service.ts:81-94 | a session just created for a known agent is that agent's active session |
| Storage.ViewsOf | server/src/modules/storage/storage.service.ts:104-111 | the views hold the listed sessions of the agent, each with its events |
| Storage.GetSessionsByAgent | server/src/modules/storage/storage.service.ts:104-111 | the result holds exactly the agent's stored sessions, each with its events |
| Storage.LastEventTime | server/src/modules/storage/storage.service.ts:213-216 | the last activity is the greatest of the start time and the event times |
| Storage.TimeoutLoopSpec | server/src/modules/storage/storage.service.ts:211-222 | the loop over distinct session ids applies the time-out rule to each listed session and leaves the others and the event lists alone |
| Storage.CheckSessionTimeoutSpec | server/src/modules/storage/storage.service.ts:208-223 | the sweep ends as completed at now exactly the active, un-ended sessions whose last activity lies more than the timeout before now, and leaves every other session as it was |
| HookIngest.DecisionLogic | server/src/hooks/hooks.service.ts:135-147 | the server's own decision always approves, with the fixed monitoring reason and no feedback |
| HookIngest.Classify | server/src/hooks/hooks.service.ts:154-182 | approval is required exactly for a shell tool whose arguments delete recursively, change the system or rewrite git history; high exactly for the first two; medium exactly for the git case or a file write touching configuration; low exactly when no action is suggested |
| HookIngest.AssessToolRisk | server/src/hooks/hooks.service.ts:149-188 | the event data gains the classification of its lower-cased tool name and argument text in its three risk fields, and nothing else in it changes |
| HookIngest.ShellDeletionIsHigh | server/src/hooks/hooks.service.ts:151-163 | tool names match ignoring case: a `Bash` call with `rm -rf` is high risk, needs approval and suggests verifying the target |
| HookIngest.RecordComputer | server/src/hooks/hooks.service.ts:36-44 | a named computer is afterwards recorded, and a new one is named by the machine name, else the host name, else its id, with unknown host and platform defaulted; without a computer id nothing changes; agents and sessions are never touched |
| HookIngest.RecordAgent | server/src/hooks/hooks.service.ts:46-52 | the event's agent is afterwards stored and active, and its active session is unchanged |
| HookIngest.ChooseSession | server/src/hooks/hooks.service.ts:54-67 | the active session is kept unless there is none or the event gives a different working directory; then an empty session under the event's session id is opened for the agent with the resolved directory and becomes the agent's current one |
| HookIngest.StoredForm | server/src/hooks/hooks.service.ts:79-82 | the stored copy of a pre-tool-use event carries all three risk fields; every other event is stored as it arrived |
| HookIngest.Deliver | server/src/hooks/hooks.service.ts:69-84 | delivery appends the stored form to the chosen session, broadcasts to the clients as a hook-event broadcast would, ends the history with the stored form, answers with the decision and records its steps in order |
| HookIngest.Proceed | server/src/hooks/hooks.service.ts:46-84 | once a working directory is known the event goes to the session the session rule picks and the answer is the decision |
| HookIngest.StepsBefore | server/src/hooks/hooks.service.ts:46-67 | recording the agent and opening a session never count as a risk assessment |
| HookIngest.ProceedIsDeliver | server/src/hooks/hooks.service.ts:46-84 | processing after the working directory is delivery after the agent step and the session rule |
| HookIngest.ProceedStore | server/src/hooks/hooks.service.ts:54-70 | a new session holds just the stored event and is the agent's current one; an existing session gains it at the end |
| HookIngest.DeliverOrder | server/src/hooks/hooks.service.ts:69-82 | the store, broadcast and assessment steps come last and in that order, the assessment exactly for a pre-tool-use event |
| HookIngest.ProceedBroadcast | server/src/hooks/hooks.service.ts:69-82 | clients receive the event as it arrived while the history ends with the stored, assessed form |
| HookIngest.ProceedOrder | server/src/hooks/hooks.service.ts:69-82 | after the session is chosen the steps end with storing, broadcasting and, only for a pre-tool-use event, assessing |
| HookIngest.ProcessHookEvent | server/src/hooks/hooks.service.ts:29-95 | every event is approved; the server-error answer comes exactly when no working directory is given and the process's own cannot be read, and then nothing but the computer was recorded; otherwise the answer is the decision |
| HookIngest.ComputerSteps | server/src/hooks/hooks.service.ts:36-44 | the computer step is taken at most once and is not a risk assessment |
| HookIngest.ProcessIsProceed | server/src/hooks/hooks.service.ts:29-84 | with a working directory at hand, processing is the computer step followed by the agent step, the session rule and delivery |
| HookIngest.IngestSession | server/src/hooks/hooks.service.ts:54-70 | the event goes to the agent's active session unless there is none or the working directory changed, in which case a session under the event's id is opened, becomes current and holds just this event |
| HookIngest.IngestBroadcast | server/src/hooks/hooks.service.ts:69-82 | stream clients get the event as it arrived, because the broadcast precedes the assessment, while the replay history ends with the assessed object storage also holds |
| HookIngest.IngestOrder | server/src/hooks/hooks.service.ts:69-82 | the event is stored, then broadcast, then, only if it is a pre-tool-use event, assessed, and these are the last steps of the processing |
| CommandHelpers.DetailsFor | client/src/utils/command-helpers.ts:17-81 | a tool the dashboard does not know is summarised by its name as sent; a multi-edit with a file says how many edits go to that file; a task-list update mentions a count exactly when there are items |
| CommandHelpers.CommandDetails | client/src/utils/command-helpers.ts:10-82 | an event without a tool name reads "use unknown tool"; an unknown tool reads "use" and its name |
| CommandHelpers.DetailsShowSubject | client/src/utils/command-helpers.ts:17-77 | whenever a known tool's argument (command, file, address, query, pattern, task, notebook, resource) is present, the summary shows it |
| CommandHelpers.MultiEditWording | client/src/utils/command-helpers.ts:26-31 | a single edit is worded in the singular, and a missing edit count reads as zero edits |
| CommandHelpers.ActionFor | client/src/utils/command-helpers.ts:94-134 | an unknown tool is described as using the tool by its name |
| CommandHelpers.CommandDescription | client/src/utils/command-helpers.ts:87-135 | every description opens with the same lead-in; without a tool name it describes an unknown action; edits and multi-edits both describe modifying a file |
| CommandHelpers.BashRisk | client/src/utils/command-helpers.ts:153-166 | a shell command is high risk exactly when it mentions a high-risk word, medium exactly when it mentions no high-risk word but a medium-risk one, and low otherwise |
| CommandHelpers.CommandRiskLevel | client/src/utils/command-helpers.ts:140-185 | a risk level sent with the event wins; otherwise a missing tool name is medium, shell commands are rated by their text, writes, multi-edits and tasks are medium and every other tool is low |
| CommandHelpers.BashRiskNeverHidden | client/src/utils/command-helpers.ts:153-166 | surrounding a command with more text never lowers its risk rating |
| CommandHelpers.IconFor | client/src/utils/command-helpers.ts:197-225 | the default icon marks exactly the tools the dashboard does not know, and a tool name never gets the unknown-tool icon |
| CommandHelpers.CommandIcon | client/src/utils/command-helpers.ts:190-226 | the unknown-tool icon marks exactly the events without a tool name, and the default icon exactly the unknown tools |
| CommandHelpers.NoToolName | client/src/utils/command-helpers.ts:10-226 | an event without a tool name gets the unknown-tool summary, description and icon, and its own risk level or medium |
| CommandHelpers.CaseInsensitive | client/src/utils/command-helpers.ts:17-197 | summary, description, risk and icon depend on the tool name only through its lower-cased form (the generic summary and description echo the name as sent) |
| AgentHelpers.ParseAgentId | client/src/utils/agent-helpers.ts:15-40 | a parsed id keeps the original; when it has an agent part, the non-empty computer part and the short alphanumeric agent part rejoin with a dash to the id; otherwise the whole id is the computer part |
| AgentHelpers.LastDashAt | client/src/utils/agent-helpers.ts:17 | a dash followed only by letters and digits is the last dash of the id |
| AgentHelpers.SplitIff | client/src/utils/agent-helpers.ts:15-40 | an id gets an agent part exactly when some dash splits it into a non-empty computer part and an agent part of at most eight letters and digits |
| AgentHelpers.ParseJoin | client/src/utils/agent-helpers.ts:15-40 | parsing a computer name joined by a dash to a short alphanumeric agent part gives back both parts |
| AgentHelpers.FormatAgentDisplayName | client/src/utils/agent-helpers.ts:45-59 | the display shows the parsed computer part above the parsed agent part |
| AgentHelpers.DisplayNameRejoins | client/src/utils/agent-helpers.ts:45-59 | the two display lines lose nothing: rejoined with a dash (or alone, without an agent part) they give the id back |
| AgentHelpers.ShortName | client/src/utils/agent-helpers.ts:64-87 | an id that fits is shown whole; a longer one keeps its whole agent part behind a cut computer part, or only the agent part when too little room is left; an id without an agent part is cut and marked with an ellipsis |
| AgentHelpers.ShortAgentName | client/src/utils/agent-helpers.ts:64-87 | an id that fits is returned unchanged; a too-long id without an agent part is cut to the budget and ends in an ellipsis |
| AgentHelpers.ShortNameKeepsAgent | client/src/utils/agent-helpers.ts:67-81 | the agent part is never cut: the short name is the agent part alone or ends with the dash and the whole agent part |
| AgentHelpers.ShortNameFits | client/src/utils/agent-helpers.ts:64-87 | from a budget of three characters on, the short name fits the budget unless it is the bare agent part of at most eight characters |
| EventHelpers.IsEventActive | client/src/utils/event-helpers.ts:15-35 | without other events, an event is active when it is a pre-tool-use event asking for approval; with them, when it is a pre-tool-use event at the newest time of its agent |
| EventHelpers.OneActiveTime | client/src/utils/event-helpers.ts:21-31 | two active events of the same agent carry the same timestamp |
| EventHelpers.StoreActiveEventsAreActive | client/src/store/dashboard-store.ts:121-146 | when the store's grouping does not throw, every event it lists as active is active by the event helper's own test against the store's events |
| EventHelpers.CapitalizeFirst | client/src/utils/event-helpers.ts:205-207 | capitalising keeps the length and the tail and upper-cases only the first character |
| EventHelpers.CapitalizeIdempotent | client/src/utils/event-helpers.ts:205-207 | capitalising twice is capitalising once |
| EventHelpers.TruncateText | client/src/utils/event-helpers.ts:212-215 | text within the limit is unchanged; longer text keeps its first limit characters followed by an ellipsis |
| EventHelpers.TruncateIdempotent | client/src/utils/event-helpers.ts:212-215 | truncating a truncated text changes nothing, although an ellipsis makes it longer than the limit |
| EventHelpers.StatusEmoji | client/src/utils/event-helpers.ts:172-182 | the check mark marks exactly completed tasks, the spinner exactly tasks in progress, and the waiting mark every other status |
| EventHelpers.HookTypeIcon | client/src/utils/event-helpers.ts:187-200 | the speech bubble marks exactly notifications and the check mark exactly post-tool-use events |
| EventHelpers.TodoLines | client/src/utils/event-helpers.ts:157-167 | one line per task, in the tasks' order |
| EventHelpers.FormatTodoList | client/src/utils/event-helpers.ts:157-167 | a missing, empty or non-array task list reads "No tasks available"; otherwise the task lines joined by line breaks |
| EventHelpers.OneLinePerTask | client/src/utils/event-helpers.ts:157-167 | a non-empty task list is rendered with exactly one line per task |
| EventHelpers.AnalyzeEvent | client/src/utils/event-helpers.ts:40-152 | the card's activity is the event's; its kind follows the lower-cased tool name, then the hook type and the approval flag; the speech bubble marks exactly notification cards, titled for approval exactly when approval is asked; file cards are titled by the capitalised tool; task bodies are cut to the limit |
| EventHelpers.AnalyzeCaseInsensitive | client/src/utils/event-helpers.ts:41-55 | the card depends on the tool name only through its lower-cased form |
| EventHelpers.AnalyzeEventAsWritten | client/src/utils/event-helpers.ts:56-69 | as written, the card is built for every event except a task-list update whose task list is not an array, where the function throws; when built it is the intended card |
| EventHelpers.ObjectTodosThrowAsWritten | client/src/utils/event-helpers.ts:56-60 | a task-list update whose task list is an object makes the function throw as written |
| EventHelpers.ObjectTodosShowNoTasks | client/src/utils/event-helpers.ts:157-160 | with the non-array guard reached, such an update shows a task-list card reading "No tasks available" |
| CommandsApi.Checked | client/src/services/commands-api.ts:10-82 | a call to any of the five checked endpoints succeeds exactly on a 2xx reply, with its body; any other reply rejects with the endpoint's message, a colon and the reply's status text; a failing request rejects as a network error |
| CommandsApi.MessageNamesEndpoint | client/src/services/commands-api.ts:29-79 | two rejection messages are equal only for the same endpoint and the same status text, so a message tells which call failed |
| CommandsApi.GetInterruptCommands | client/src/services/commands-api.ts:146-154 | the interrupt poll reads a non-2xx reply as no interrupts and rejects only when the request itself fails |
| CommandsApi.ApproveRequest | client/src/services/commands-api.ts:85-93 | an approval for the given agent, session and event always carries a non-empty reason, and no feedback or instructions |
| CommandsApi.DenyRequest | client/src/services/commands-api.ts:95-106 | a denial always carries a non-empty reason and passes the operator's feedback unchanged |
| CommandsApi.ContextRequest | client/src/services/commands-api.ts:108-116 | injected context carries the instructions alone, with no reason |
| CommandsApi.ContinueRequest | client/src/services/commands-api.ts:118-125 | a continue request carries only the optional instructions and is tied to no event |
| CommandsApi.StopRequest | client/src/services/commands-api.ts:127-134 | a stop request carries the operator's reason as given and is tied to no event |
| CommandsApi.InterruptRequest | client/src/services/commands-api.ts:136-143 | an interrupt always carries a non-empty reason, no feedback, and is tied to no event |
| CommandsApi.ApproveReachesHook | client/src/services/commands-api.ts:85-93 | an approval made on the dashboard, once stored by the broker, lets the agent's tool run with the operator's reason or the dashboard default |
| CommandsApi.DenyReachesHook | client/src/services/commands-api.ts:95-106 | a stored denial blocks the tool with its reason and hands the operator's feedback to the agent |
| CommandsApi.ContextReachesHook | client/src/services/commands-api.ts:108-116 | stored context lets the tool run and hands non-empty instructions to the agent |
| CommandsApi.InterruptReachesHook | client/src/services/commands-api.ts:136-143 | a stored interrupt blocks the tool with its reason and the fixed interruption feedback |
| CommandsApi.SessionControlReachesHook | client/src/services/commands-api.ts:118-134 | at the stop point a stored continue keeps the session going with the instructions, and a stored stop lets it end with the operator's reason or the hook's default |

## Left out

- Transport: `fetch`, axios, `AbortController` timeouts, `EventSource`, the Server-Sent Events framing (section 9.2 of the HTML Living Standard) and JSON encoding are abstract outcomes `Ok(body) | NotOk(statusText) | Throw`; URLs are not modelled. The server's global `api` prefix plus the controller path `api/commands` gives a route the clients do not call; that wiring is outside the model.
- Sleeping and timers: the hooks' 500 ms sleep and 1000 ms fetch abort advance an explicit clock, checked only before each poll. The abort covers only the list request's answer: the body read after `clearTimeout` and the claim and completion requests have no time-out, so the model charges their latencies as given and PollLoop.LoopTiming bounds the end of a run only relative to them.
- Clock, randomness and id generation (`Date.now`, `Math.random`, `generate*Id`, `generateSessionName`) are parameters. Broker.ListPending reads one `now` for the whole list, whereas `getPendingCommandsForAgent` calls `new Date()` once per command, so a command expiring during the scan can be judged at a slightly later instant there. The uniqueness of generated id strings is a precondition of the invariant lemmas, not a property of the model.
- `checkForInterrupt` is imported by the pre-tool-use hook but not defined in `agent/src/utils/hook-utils.ts`; its outcome is an input (`None` when it throws). There is no server-side interrupt lookup either, and none is invented.
- `broadcastCommandUpdate` is called by the broker but not defined by the events service; broker operations return the updates they would announce as an output.
- The two hook agent ids (the command-line one used for the interrupt check and the context one used for polling) stay separate inputs.
- An unhandled rejection of `main` is taken to end the process with status 1 and nothing on stdout, which is what Node does by default from version 15 on.
- The contents of the debug log (only whether each `appendFileSync` throws is modelled), the installer, `agent/src/utils/context.ts` (hashing, git, `execSync`), the loggers, the process wrapper and the CLI: file-system and process work.
- React components, pages and `client/src/hooks/use-sse.ts`: rendering and glue. NestJS controllers, modules, DTOs, authentication and the axios client: wiring.
- Listener callbacks are modelled as a log of notifications; an exception thrown by a listener, and the parsing in `onmessage`, are not modelled.
- Iteration order of JavaScript objects and maps is simplified: the dashboard's agents are keyed by id without the rule that integer-like keys come first, and `getActiveAgents` is a set.
- Dates are integer milliseconds: `new Date(...)` on an unparsable timestamp (`NaN`) is not modelled, and timestamp strings compare as numbers.
- Case conversion (`toLowerCase`, `toUpperCase`) is ASCII-only; other Unicode letters are left unchanged.
- String lengths, indices and cuts count Unicode scalar values, while JavaScript counts UTF-16 code units; the two agree on text inside the Basic Multilingual Plane and differ for characters outside it, which count two units in the source (a faithful cut could leave half a surrogate pair, which a sequence of scalar values cannot hold). AgentHelpers.ParseAgentId is exact regardless, because an accepted agent part is ASCII.
- EventHelpers.TruncateText: the limit counts scalar values, so text with characters outside the Basic Multilingual Plane is cut later than the source cuts it (80 emoji under a limit of 150 stay whole here and are cut in the source).
- EventHelpers.AnalyzeEvent: its 150-character task body and 100-character argument preview count scalar values, not UTF-16 units, with the same difference as TruncateText.
- AgentHelpers.ShortName: the length budget and the cut of the computer part count scalar values, not UTF-16 units, so an id with characters outside the Basic Multilingual Plane may be kept whole or cut later than in the source.
- AgentHelpers.ShortAgentName: inherits the scalar-value budget of AgentHelpers.ShortName.
- `JSON.stringify` of tool arguments is taken as a given string field of the arguments.
- Hook events without a `data` object are not modelled; `assessToolRisk` would throw on them after the event was stored and broadcast.
- Task-list items that are `null` are not modelled; every item is a record with a status string and optional content, and a missing status is represented by any string other than `completed` and `in_progress`, which the formatter shows the same way.
- The SSE client's delays are reals with jitter in [0, 1000); timer handles are a flag.
- CommandHelpers.DetailsFor: a `todos` value that is a string is counted as no items, whereas the source would count its characters.
- AgentHelpers.ShortNameFits: the bare-agent fallback is bounded by eight characters, not by `maxLength`, because the source returns it whatever the budget.
- SseClient.OnError: its ensures states only the manual and no-source cases; the scheduling case is stated by SseClient.ScheduleReconnect and SseClient.StepPreservesValid.
- Hub.Broadcast: its ensures states that history is kept and no client is added; what each subscriber receives and who is dropped is stated in Hub.BroadcastEffect.

Observations about the source that the model reproduces rather than corrects:

- The pre-tool-use hook ignores a failed claim, so two hooks polling at once can both execute one command.
- `completeCommand` sets the requested status without checking the current one, so a completed command can be marked expired.
- The `'rm -rf'` test in `assessToolRisk` is subsumed by the `'rm -r'` test.
- `assessToolRisk` mutates the event after it was broadcast: the stored copy and the replay history gain the risk fields, the live stream copy does not.
- `createSession` with an existing session id replaces the session and drops its events.
- The `potentialComputer.length > 0` test in `parseAgentId` is implied by `lastDashIndex > 0`, and the `•` default of `getHookTypeIcon` cannot be reached from a hook type.

## Findings

| source | as written | input that shows it | evidently intended | confidence | as-written member | corrected member |
|---|---|---|---|---|---|---|
| client/src/utils/event-helpers.ts:56-69 | the task-list branch of `analyzeEvent` calls `todos.filter` (three unused status counts) before `formatTodoList`, whose non-array guard is therefore never reached for a truthy non-array | a `TodoWrite` event whose `toolArgs.todos` is an object such as `{}`: `filter` is not a function and the card throws a `TypeError` | the guard in `formatTodoList` handles it and the card reads "No tasks available" | not executed | EventHelpers.AnalyzeEventAsWritten, EventHelpers.ObjectTodosThrowAsWritten | EventHelpers.AnalyzeEvent, EventHelpers.ObjectTodosShowNoTasks |
